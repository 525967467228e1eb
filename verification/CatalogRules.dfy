/** What every sequence of catalog operations keeps. */
module CatalogRules {
  import opened Text
  import opened RunCatalog

  /** A prepared run is the selected one of its owner and channel, up to some runs. */
  ghost predicate PreparedSelected(c: Catalog, but: set<string>) {
    forall id {:trigger c.runs[id]} :: id in c.runs && c.runs[id].status.Prepared? && id !in but ==>
      PlaceOf(c.runs[id]) in c.selected && c.selected[PlaceOf(c.runs[id])] == id
  }

  /** A selection names an existing run of its owner and channel that is not active,
      unless it names a run out of order. */
  ghost predicate SelectionSound(c: Catalog, but: set<string>) {
    forall p {:trigger c.selected[p]} :: p in c.selected && c.selected[p] !in but ==>
      c.selected[p] in c.runs && PlaceOf(c.runs[c.selected[p]]) == p && !c.runs[c.selected[p]].status.Active?
  }

  /** Reservations share neither owner nor channel. */
  ghost predicate ReservationsApart(c: Catalog) {
    forall p, q {:trigger c.reservations[p], c.reservations[q]} ::
      p in c.reservations && q in c.reservations && p != q ==> p.0 != q.0 && p.1 != q.1
  }

  /** No run of a reserved owner or channel is active. */
  ghost predicate ReservedIdle(c: Catalog) {
    forall p, id {:trigger c.reservations[p], c.runs[id]} ::
      p in c.reservations && id in c.runs && c.runs[id].status.Active? ==>
        c.runs[id].owner != p.0 && c.runs[id].channel != p.1
  }

  ghost predicate Sound(c: Catalog) {
    PreparedSelected(c, {}) && SelectionSound(c, {}) && ReservationsApart(c) && ReservedIdle(c)
  }

  /** There is at most one prepared run for an owner in a channel. */
  lemma {:induction false} OnePrepared(c: Catalog, a: string, b: string)
    requires Sound(c) && a in c.runs && b in c.runs && c.runs[a].status.Prepared? && c.runs[b].status.Prepared?
    requires PlaceOf(c.runs[a]) == PlaceOf(c.runs[b])
    ensures a == b
  {}

  // Operations

  datatype Op =
    | Reserving(owner: int, channel: int, token: nat)
    | Cancelling(owner: int, channel: int, token: nat)
    | PreparingReserved(owner: int, channel: int, token: nat, id: string, first: bool, second: bool)
    | Preparing(owner: int, channel: int, id: string, first: bool, second: bool)
    | Acquiring(owner: int, channel: int, resume: Option<string>, id: string, writes: bool)
    | Resuming(owner: int, channel: int, id: string, first: bool, second: bool)
    | Finishing(id: string, status: Status, writes: bool)
    | Deleting(owner: int, id: string, moved: bool)

  function Perform(c: Catalog, op: Op): Result {
    match op
    case Reserving(o, ch, token) => ReserveReset(c, o, ch, token)
    case Cancelling(o, ch, token) => CancelReset(c, o, ch, token)
    case PreparingReserved(o, ch, token, id, first, second) => PrepareReserved(c, o, ch, token, id, first, second)
    case Preparing(o, ch, id, first, second) => Prepare(c, o, ch, id, first, second)
    case Acquiring(o, ch, resume, id, writes) => Acquire(c, o, ch, resume, id, writes)
    case Resuming(o, ch, id, first, second) => Resume(c, o, ch, id, first, second)
    case Finishing(id, status, writes) => Finish(c, id, status, writes)
    case Deleting(o, id, moved) => Delete(c, o, id, moved)
  }

  /** The ids of new runs are new. */
  predicate Allowed(c: Catalog, op: Op) {
    match op
    case PreparingReserved(_, _, _, id, _, _) => id !in c.runs
    case Preparing(_, _, id, _, _) => id !in c.runs
    case Acquiring(_, _, _, id, _) => id !in c.runs
    case _ => true
  }

  /** The operation stops between preparing a run and selecting it, because writing the
      run itself or the run it displaces fails. */
  predicate Strands(c: Catalog, op: Op) {
    match op
    case PreparingReserved(o, ch, token, id, first, second) =>
      Holds(c, (o, ch), token) && first && !second && PreparedThere(c, (o, ch))
    case Preparing(o, ch, id, first, second) =>
      ResetAllowed(c, o, ch) && first && !second && PreparedThere(c, (o, ch))
    case Resuming(o, ch, id, first, second) =>
      && id in c.runs && c.runs[id].owner == o && !c.runs[id].status.Active?
      && !((o, ch) in c.selected && c.selected[(o, ch)] == id)
      && (!first || (!second && PreparedThere(c, (o, ch))))
    case _ => false
  }

  // Selecting

  /** Selecting a prepared run puts it in order and leaves the others so. */
  lemma {:induction false} SelectKeeps(c: Catalog, id: string, but: set<string>)
    requires id in c.runs && c.runs[id].status.Prepared?
    requires PreparedSelected(c, but + {id}) && SelectionSound(c, {id}) && ReservationsApart(c) && ReservedIdle(c)
    ensures var d := SelectPrepared(c, id, true).catalog;
      && PreparedSelected(d, but - {id}) && SelectionSound(d, {}) && ReservationsApart(d) && ReservedIdle(d)
      && d.runs.Keys == c.runs.Keys
      && (forall k :: k in c.runs && d.runs[k].status.Prepared? ==> c.runs[k].status.Prepared?)
  {
    var p := PlaceOf(c.runs[id]);
    var e := c.(selected := Unselected(c.selected, id));
    var d := SelectPrepared(c, id, true).catalog;
    assert forall k :: k in c.runs ==> PlaceOf(d.runs[k]) == PlaceOf(c.runs[k]);
    forall k | k in d.runs && d.runs[k].status.Prepared? && k !in but - {id}
      ensures PlaceOf(d.runs[k]) in d.selected && d.selected[PlaceOf(d.runs[k])] == k
    {
      if k != id {
        assert c.runs[k].status.Prepared?;
        assert c.selected[PlaceOf(c.runs[k])] == k;
      }
    }
  }

  /** Without the second write a displacement leaves the new run unselected. */
  lemma {:induction false} SelectStrands(c: Catalog, id: string)
    requires id in c.runs && c.runs[id].status.Prepared? && Displaces(c, PlaceOf(c.runs[id]), id)
    ensures !Sound(SelectPrepared(c, id, false).catalog)
  {
    var p := PlaceOf(c.runs[id]);
    var e := c.(selected := Unselected(c.selected, id));
    assert p in e.selected && e.selected[p] == c.selected[p] != id;
    var d := SelectPrepared(c, id, false).catalog;
    assert d.selected[p] != id && d.runs[id].status.Prepared? && PlaceOf(d.runs[id]) == p;
    assert !PreparedSelected(d, {});
  }

  lemma {:induction false} SelectWithoutDisplacing(c: Catalog, id: string, writes: bool)
    requires id in c.runs && !Displaces(c, PlaceOf(c.runs[id]), id)
    ensures SelectPrepared(c, id, writes) == SelectPrepared(c, id, true)
  {}

  // Each operation

  lemma {:induction false} NewRun(c: Catalog, id: string, owner: int, channel: int)
    requires Sound(c) && id !in c.runs
    ensures var d := c.(runs := c.runs[id := Run(owner, channel, Prepared)]);
      PreparedSelected(d, {id}) && SelectionSound(d, {id}) && ReservationsApart(d) && ReservedIdle(d)
      && (Displaces(d, (owner, channel), id) <==> PreparedThere(c, (owner, channel)))
  {}

  lemma {:induction false} SelectNew(c: Catalog, id: string, owner: int, channel: int, second: bool)
    requires Sound(c) && id !in c.runs
    ensures var d := c.(runs := c.runs[id := Run(owner, channel, Prepared)]);
      Sound(SelectPrepared(d, id, second).catalog) <==> second || !PreparedThere(c, (owner, channel))
  {
    var d := c.(runs := c.runs[id := Run(owner, channel, Prepared)]);
    NewRun(c, id, owner, channel);
    assert {} + {id} == {id} && {id} - {id} == {};
    SelectKeeps(d, id, {});
    assert {} - {id} == {};
    if !PreparedThere(c, (owner, channel)) {
      SelectWithoutDisplacing(d, id, second);
    } else if !second {
      SelectStrands(d, id);
    }
  }

  lemma {:induction false} FewerReservations(c: Catalog, p: Place)
    requires ReservationsApart(c) && ReservedIdle(c)
    ensures ReservationsApart(c.(reservations := c.reservations - {p}))
        && ReservedIdle(c.(reservations := c.reservations - {p}))
  {}

  lemma {:induction false} PrepareReservedKeepsIff(c: Catalog, o: int, ch: int, token: nat, id: string, first: bool,
                                                   second: bool)
    requires Sound(c) && id !in c.runs
    ensures Sound(PrepareReserved(c, o, ch, token, id, first, second).catalog)
            <==> !Strands(c, PreparingReserved(o, ch, token, id, first, second))
  {
    if Holds(c, (o, ch), token) {
      FewerReservations(c, (o, ch));
      if first {
        SelectNew(c, id, o, ch, second);
        var e := SelectPrepared(c.(runs := c.runs[id := Run(o, ch, Prepared)]), id, second).catalog;
        var d := e.(reservations := e.reservations - {(o, ch)});
        assert PreparedSelected(d, {}) == PreparedSelected(e, {}) && SelectionSound(d, {}) == SelectionSound(e, {});
        NewRun(c, id, o, ch);
        SelectLeavesReservations(c.(runs := c.runs[id := Run(o, ch, Prepared)]), id, second);
        FewerReservations(e, (o, ch));
      }
    }
  }

  lemma {:induction false} SelectLeavesReservations(c: Catalog, id: string, writes: bool)
    requires id in c.runs && ReservationsApart(c) && ReservedIdle(c)
    ensures var e := SelectPrepared(c, id, writes).catalog; ReservationsApart(e) && ReservedIdle(e)
  {}

  /** The selection at a place is taken back: only a prepared run there is out of order. */
  lemma {:induction false} TakenBack(c: Catalog, p: Place)
    requires Sound(c)
    ensures var d := c.(selected := c.selected - {p});
      && PreparedSelected(d, if PreparedThere(c, p) then {c.selected[p]} else {})
      && SelectionSound(d, {}) && ReservationsApart(d) && ReservedIdle(d)
      && (forall id {:trigger d.runs[id]} :: id in d.runs && PlaceOf(d.runs[id]) == p ==> id !in d.selected.Values)
  {}

  /** Activating a run that nothing selects and no reservation touches. */
  lemma {:induction false} ActivateKeeps(d: Catalog, id: string, writes: bool)
    requires id in d.runs && PreparedSelected(d, {id}) && SelectionSound(d, {})
    requires ReservationsApart(d) && ReservedIdle(d)
    requires id !in d.selected.Values && !Conflicts(d, d.runs[id].owner, d.runs[id].channel)
    ensures Sound(Activate(d, id, d.runs[id].channel, writes).catalog)
  {}

  lemma {:induction false} CreateActiveKeeps(d: Catalog, id: string, o: int, ch: int, writes: bool)
    requires Sound(d) && id !in d.runs && !Conflicts(d, o, ch)
    ensures Sound(Create(d, id, o, ch, Active, writes).catalog)
  {}

  lemma {:induction false} AcquireKeeps(c: Catalog, o: int, ch: int, resume: Option<string>, id: string, writes: bool)
    requires Sound(c) && id !in c.runs
    ensures Sound(Acquire(c, o, ch, resume, id, writes).catalog)
  {
    if !Conflicts(c, o, ch) {
      var p := (o, ch);
      var d := c.(selected := c.selected - {p});
      TakenBack(c, p);
      assert !Conflicts(d, o, ch);
      if PreparedThere(c, p) {
        ActivateKeeps(d, c.selected[p], writes);
      } else if resume.Some? && ResumableThere(c, resume.value, p) {
        ActivateKeeps(d, resume.value, writes);
      } else {
        CreateActiveKeeps(d, id, o, ch, writes);
      }
    }
  }

  lemma {:induction false} RunPrepared(c: Catalog, id: string, ch: int)
    requires Sound(c) && id in c.runs && !c.runs[id].status.Active?
    ensures var d := c.(runs := c.runs[id := c.runs[id].(channel := ch, status := Prepared)]);
      var p := (c.runs[id].owner, ch);
      && PreparedSelected(d, {id}) && SelectionSound(d, {id}) && ReservationsApart(d) && ReservedIdle(d)
      && (Displaces(d, p, id) <==> PreparedThere(c, p) && c.selected[p] != id)
      && (Sound(d) <==> p in c.selected && c.selected[p] == id)
  {
    var d := c.(runs := c.runs[id := c.runs[id].(channel := ch, status := Prepared)]);
    var p := (c.runs[id].owner, ch);
    assert PlaceOf(d.runs[id]) == p;
    if p in c.selected && c.selected[p] == id {
      assert PlaceOf(c.runs[id]) == p;
      assert SelectionSound(d, {});
    }
  }

  lemma {:induction false} ResumeKeepsIff(c: Catalog, o: int, ch: int, id: string, first: bool, second: bool)
    requires Sound(c)
    ensures Sound(Resume(c, o, ch, id, first, second).catalog) <==> !Strands(c, Resuming(o, ch, id, first, second))
  {
    if id in c.runs && c.runs[id].owner == o && !c.runs[id].status.Active? {
      RunPrepared(c, id, ch);
      if first {
        var d := c.(runs := c.runs[id := c.runs[id].(channel := ch, status := Prepared)]);
        assert {} + {id} == {id} && {} - {id} == {};
        SelectKeeps(d, id, {});
        if !Displaces(d, (o, ch), id) {
          SelectWithoutDisplacing(d, id, second);
        } else if !second {
          SelectStrands(d, id);
        }
      }
    }
  }

  lemma {:induction false} FinishKeeps(c: Catalog, id: string, status: Status, writes: bool)
    requires Sound(c)
    ensures Sound(Finish(c, id, status, writes).catalog)
  {}

  lemma {:induction false} DeleteKeeps(c: Catalog, o: int, id: string, moved: bool)
    requires Sound(c)
    ensures Sound(Delete(c, o, id, moved).catalog)
  {}

  /** An operation keeps the rules exactly unless a failed write strands the run it has
      just prepared. */
  lemma {:induction false} PerformKeepsIff(c: Catalog, op: Op)
    requires Sound(c) && Allowed(c, op)
    ensures Sound(Perform(c, op).catalog) <==> !Strands(c, op)
  {
    match op {
      case Reserving(_, _, _) =>
      case Cancelling(o, ch, _) => FewerReservations(c, (o, ch));
      case PreparingReserved(o, ch, token, id, first, second) =>
        PrepareReservedKeepsIff(c, o, ch, token, id, first, second);
      case Preparing(o, ch, id, _, second) => SelectNew(c, id, o, ch, second);
      case Acquiring(o, ch, resume, id, writes) => AcquireKeeps(c, o, ch, resume, id, writes);
      case Resuming(o, ch, id, first, second) => ResumeKeepsIff(c, o, ch, id, first, second);
      case Finishing(id, status, writes) => FinishKeeps(c, id, status, writes);
      case Deleting(o, id, moved) => DeleteKeeps(c, o, id, moved);
    }
  }

  ghost predicate Leads(c: Catalog, ops: seq<Op>, d: Catalog)
    decreases |ops|
  {
    if ops == [] then c == d
    else Allowed(c, ops[0]) && !Strands(c, ops[0]) && Leads(Perform(c, ops[0]).catalog, ops[1..], d)
  }

  /** Every catalog reached without a stranded run is sound. */
  lemma {:induction false} ReachedIsSound(c: Catalog, ops: seq<Op>, d: Catalog)
    requires Sound(c) && Leads(c, ops, d)
    ensures Sound(d)
    decreases |ops|
  {
    if ops != [] {
      PerformKeepsIff(c, ops[0]);
      ReachedIsSound(Perform(c, ops[0]).catalog, ops[1..], d);
    }
  }

  // Reservations, whatever fails

  /** A selection names an existing run of its owner. */
  ghost predicate SelectionOwned(c: Catalog) {
    forall p {:trigger c.selected[p]} :: p in c.selected ==>
      c.selected[p] in c.runs && c.runs[c.selected[p]].owner == p.0
  }

  ghost predicate ReservationsHold(c: Catalog) {
    ReservationsApart(c) && ReservedIdle(c) && SelectionOwned(c)
  }

  lemma {:induction false} SelectOwned(c: Catalog, id: string, writes: bool)
    requires id in c.runs && ReservationsHold(c)
    ensures ReservationsHold(SelectPrepared(c, id, writes).catalog)
  {}

  lemma {:induction false} NewPreparedOwned(c: Catalog, id: string, o: int, ch: int, writes: bool)
    requires id !in c.runs && ReservationsHold(c)
    ensures ReservationsHold(SelectPrepared(c.(runs := c.runs[id := Run(o, ch, Prepared)]), id, writes).catalog)
  {
    SelectOwned(c.(runs := c.runs[id := Run(o, ch, Prepared)]), id, writes);
  }

  lemma {:induction false} FewerHold(c: Catalog, p: Place)
    requires ReservationsHold(c)
    ensures ReservationsHold(c.(reservations := c.reservations - {p}))
  {
    FewerReservations(c, p);
  }

  lemma {:induction false} ActivateOwned(c: Catalog, id: string, ch: int, writes: bool)
    requires id in c.runs && ReservationsHold(c) && !Conflicts(c, c.runs[id].owner, ch)
    ensures ReservationsHold(Activate(c, id, ch, writes).catalog)
  {}

  lemma {:induction false} AcquireOwned(c: Catalog, o: int, ch: int, resume: Option<string>, id: string, writes: bool)
    requires ReservationsHold(c) && id !in c.runs
    ensures ReservationsHold(Acquire(c, o, ch, resume, id, writes).catalog)
  {
    if !Conflicts(c, o, ch) {
      var p := (o, ch);
      var d := c.(selected := c.selected - {p});
      assert !Conflicts(d, o, ch) && ReservationsHold(d);
      if PreparedThere(c, p) {
        ActivateOwned(d, c.selected[p], ch, writes);
      } else if resume.Some? && ResumableThere(c, resume.value, p) {
        ActivateOwned(d, resume.value, ch, writes);
      }
    }
  }

  lemma {:induction false} ResumeOwned(c: Catalog, o: int, ch: int, id: string, first: bool, second: bool)
    requires ReservationsHold(c)
    ensures ReservationsHold(Resume(c, o, ch, id, first, second).catalog)
  {
    if id in c.runs && c.runs[id].owner == o && !c.runs[id].status.Active? {
      var d := c.(runs := c.runs[id := c.runs[id].(channel := ch, status := Prepared)]);
      assert ReservationsHold(d);
      SelectOwned(d, id, second);
    }
  }

  lemma {:induction false} PrepareReservedOwned(c: Catalog, o: int, ch: int, token: nat, id: string, first: bool,
                                                second: bool)
    requires ReservationsHold(c) && id !in c.runs
    ensures ReservationsHold(PrepareReserved(c, o, ch, token, id, first, second).catalog)
  {
    if Holds(c, (o, ch), token) {
      if first {
        NewPreparedOwned(c, id, o, ch, second);
        FewerHold(SelectPrepared(c.(runs := c.runs[id := Run(o, ch, Prepared)]), id, second).catalog, (o, ch));
      } else {
        FewerHold(c, (o, ch));
      }
    }
  }

  /** Every operation keeps the reservations apart and their owners and channels idle,
      whichever of its writes fails. */
  lemma {:induction false} PerformKeepsReservations(c: Catalog, op: Op)
    requires ReservationsHold(c) && Allowed(c, op)
    ensures ReservationsHold(Perform(c, op).catalog)
  {
    match op {
      case Reserving(_, _, _) =>
      case Cancelling(o, ch, _) => FewerHold(c, (o, ch));
      case PreparingReserved(o, ch, token, id, first, second) =>
        PrepareReservedOwned(c, o, ch, token, id, first, second);
      case Preparing(o, ch, id, _, second) => NewPreparedOwned(c, id, o, ch, second);
      case Acquiring(o, ch, resume, id, writes) => AcquireOwned(c, o, ch, resume, id, writes);
      case Resuming(o, ch, id, first, second) => ResumeOwned(c, o, ch, id, first, second);
      case Finishing(_, _, _) =>
      case Deleting(_, _, _) =>
    }
  }

  /** Any sequence of operations, failed writes included. */
  ghost predicate Reaches(c: Catalog, ops: seq<Op>, d: Catalog)
    decreases |ops|
  {
    if ops == [] then c == d else Allowed(c, ops[0]) && Reaches(Perform(c, ops[0]).catalog, ops[1..], d)
  }

  lemma {:induction false} ReachedReservationsHold(c: Catalog, ops: seq<Op>, d: Catalog)
    requires ReservationsHold(c) && Reaches(c, ops, d)
    ensures ReservationsHold(d)
    decreases |ops|
  {
    if ops != [] {
      PerformKeepsReservations(c, ops[0]);
      ReachedReservationsHold(Perform(c, ops[0]).catalog, ops[1..], d);
    }
  }

  /** In every catalog reached from an empty or a scanned one, whatever failed on the way:
      every selection names an existing run of its owner; two reservations share neither owner
      nor channel, and while one is held no run of its owner or channel is active. */
  lemma {:induction false} ReservedStaysIdle(c: Catalog, ops: seq<Op>, d: Catalog, p: Place)
    requires Sound(c) && Reaches(c, ops, d)
    ensures p in d.selected ==> d.selected[p] in d.runs && d.runs[d.selected[p]].owner == p.0
    ensures p in d.reservations ==> forall q :: q in d.reservations && q != p ==> q.0 != p.0 && q.1 != p.1
    ensures p in d.reservations ==>
      forall id :: id in d.runs && (d.runs[id].owner == p.0 || d.runs[id].channel == p.1) ==>
        !d.runs[id].status.Active?
  {
    ReachedReservationsHold(c, ops, d);
    if p in d.reservations {
      var token := d.reservations[p];
      forall q | q in d.reservations && q != p
        ensures q.0 != p.0 && q.1 != p.1
      {
        var other := d.reservations[q];
      }
    }
  }

  lemma {:induction false} EmptyIsSound()
    ensures Sound(EMPTY)
  {}

  lemma {:induction false} Unroll(c: Catalog, op: Op, ops: seq<Op>, d: Catalog)
    requires Allowed(c, op) && Reaches(Perform(c, op).catalog, ops, d)
    ensures Reaches(c, [op] + ops, d)
    ensures !Strands(c, op) && Leads(Perform(c, op).catalog, ops, d) ==> Leads(c, [op] + ops, d)
  {
    assert ([op] + ops)[1..] == ops;
  }

  /** A run "a" of owner 1 in channel 1 that was acquired and stopped. */
  lemma {:induction false} StoppedRun() returns (ops: seq<Op>, c: Catalog)
    ensures Leads(EMPTY, ops, c) && Reaches(EMPTY, ops, c)
    ensures c == Catalog(map["a" := Run(1, 1, Stopped)], map[], map[])
  {
    var acquire, finish := Acquiring(1, 1, None, "a", true), Finishing("a", Stopped, true);
    var d := Perform(EMPTY, acquire).catalog;
    assert d == Catalog(map["a" := Run(1, 1, Active)], map[], map[]);
    c := Perform(d, finish).catalog;
    Unroll(d, finish, [], c);
    Unroll(EMPTY, acquire, [finish], c);
    assert [finish] + [] == [finish];
    ops := [acquire] + [finish];
  }

  /** The exception is real: resuming that run with a failing write leaves it prepared and
      unselected. */
  lemma {:induction false} FailedResumeStrands() returns (ops: seq<Op>, c: Catalog, op: Op)
    ensures Leads(EMPTY, ops, c) && Sound(c) && Allowed(c, op) && Strands(c, op) && !Sound(Perform(c, op).catalog)
    ensures Perform(c, op).catalog.runs == map["a" := Run(1, 1, Prepared)] && Perform(c, op).catalog.selected == map[]
  {
    ops, c := StoppedRun();
    op := Resuming(1, 1, "a", false, false);
    EmptyIsSound();
    ReachedIsSound(EMPTY, ops, c);
    PerformKeepsIff(c, op);
  }

  /** A reservation does not keep a run of its owner from being prepared by a resume. */
  lemma {:induction false} ResumePreparesUnderReservation() returns (ops: seq<Op>, c: Catalog)
    ensures Reaches(EMPTY, ops, c) && (1, 1) in c.reservations && "a" in c.runs && c.runs["a"] == Run(1, 1, Prepared)
  {
    var before, d := StoppedRun();
    var reserve, resume := Reserving(1, 1, 0), Resuming(1, 1, "a", true, true);
    var e := Perform(d, reserve).catalog;
    assert !Conflicts(d, 1, 1) && !ActiveThere(d, 1, 1);
    c := Perform(e, resume).catalog;
    Unroll(e, resume, [], c);
    Unroll(d, reserve, [resume], c);
    assert [resume] + [] == [resume];
    ReachesConcat(EMPTY, before, d, [reserve] + [resume], c);
    ops := before + ([reserve] + [resume]);
  }

  lemma {:induction false} ReachesConcat(c: Catalog, a: seq<Op>, d: Catalog, b: seq<Op>, e: Catalog)
    requires Reaches(c, a, d) && Reaches(d, b, e)
    ensures Reaches(c, a + b, e)
    decreases |a|
  {
    if a == [] {
      assert a + b == b;
    } else {
      assert (a + b)[1..] == a[1..] + b;
      ReachesConcat(Perform(c, a[0]).catalog, a[1..], d, b, e);
    }
  }

  // Startup

  function Rest(order: seq<string>, n: nat): set<string>
    requires n <= |order|
    decreases |order| - n
  {
    if n == |order| then {} else {order[n]} + Rest(order, n + 1)
  }

  lemma {:induction false} InRest(order: seq<string>, n: nat, id: string)
    requires n <= |order|
    ensures id in Rest(order, n) <==> exists k :: n <= k < |order| && order[k] == id
    decreases |order| - n
  {
    if n < |order| {
      InRest(order, n + 1, id);
    }
  }

  predicate EachOnce(order: seq<string>) {
    forall i, j :: 0 <= i < j < |order| ==> order[i] != order[j]
  }

  /** The order lists every prepared run found, and only such runs, once each. */
  ghost predicate ListsPrepared(runs: map<string, Run>, order: seq<string>) {
    && (forall id {:trigger runs[id]} :: id in runs && runs[id].status.Prepared? ==> id in order)
    && (forall k {:trigger order[k]} :: 0 <= k < |order| ==> order[k] in runs && runs[order[k]].status.Prepared?)
    && EachOnce(order)
  }

  /** The catalog while n prepared runs have been selected. */
  ghost predicate Scanning(c: Catalog, order: seq<string>, n: nat)
    requires n <= |order|
  {
    && PreparedSelected(c, Rest(order, n)) && SelectionSound(c, {}) && c.reservations == map[]
    && (forall k {:trigger order[k]} :: n <= k < |order| ==> order[k] in c.runs && c.runs[order[k]].status.Prepared?)
    && (forall p {:trigger c.selected[p]} :: p in c.selected ==> c.selected[p] !in Rest(order, n))
  }

  lemma {:induction false} OthersStay(c: Catalog, id: string, k: string)
    requires id in c.runs && k in c.runs && k != id
    ensures var d := SelectPrepared(c, id, true).catalog;
      k in d.runs && (d.runs[k] == c.runs[k] || exists p :: p in c.selected && c.selected[p] == k)
  {}

  lemma {:induction false} ScanStep(c: Catalog, order: seq<string>, n: nat) returns (d: Catalog)
    requires n < |order| && Scanning(c, order, n) && EachOnce(order)
    ensures order[n] in c.runs && d == SelectPrepared(c, order[n], true).catalog && Scanning(d, order, n + 1)
  {
    var id := order[n];
    d := SelectPrepared(c, id, true).catalog;
    InRest(order, n + 1, id);
    assert Rest(order, n) + {id} == Rest(order, n) && Rest(order, n) - {id} == Rest(order, n + 1);
    SelectKeeps(c, id, Rest(order, n));
    forall k | n < k < |order|
      ensures order[k] in d.runs && d.runs[order[k]].status.Prepared?
    {
      OthersStay(c, id, order[k]);
      InRest(order, n, order[k]);
    }
    SelectionIsFrom(c, id);
  }

  lemma {:induction false} SelectionIsFrom(c: Catalog, id: string)
    requires id in c.runs
    ensures var d := SelectPrepared(c, id, true).catalog;
      forall p :: p in d.selected ==> d.selected[p] == id || (p in c.selected && d.selected[p] == c.selected[p])
  {}

  lemma {:induction false} SelectedNext(c: Catalog, order: seq<string>, n: nat, d: Catalog)
    requires 0 < n <= |order| && d == SelectedInOrder(c, order, n - 1) && order[n - 1] in d.runs
    ensures SelectedInOrder(c, order, n) == SelectPrepared(d, order[n - 1], true).catalog
  {}

  lemma {:induction false} ScanPrefix(c: Catalog, order: seq<string>, n: nat) returns (d: Catalog)
    requires n <= |order| && Scanning(c, order, 0) && EachOnce(order)
    ensures d == SelectedInOrder(c, order, n) && Scanning(d, order, n)
  {
    d := c;
    if n > 0 {
      var b := ScanPrefix(c, order, n - 1);
      d := ScanStep(b, order, n - 1);
      SelectedNext(c, order, n, b);
    }
  }

  /** Whatever metadata is found at startup, and in whatever order the prepared runs are
      selected, the catalog is sound. */
  lemma {:induction false} ScannedIsSound(entries: seq<(string, Run)>, order: seq<string>)
    requires ListsPrepared(Found(entries, |entries|), order)
    ensures Sound(Scanned(entries, order))
  {
    var c := Catalog(Found(entries, |entries|), map[], map[]);
    forall id | id in c.runs && c.runs[id].status.Prepared?
      ensures id in Rest(order, 0)
    {
      InRest(order, 0, id);
    }
    assert Scanning(c, order, 0);
    var d := ScanPrefix(c, order, |order|);
    assert Rest(order, |order|) == {};
  }
}
