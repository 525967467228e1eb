/** What each catalog operation answers and changes, run by run. */
module CatalogAnswers {
  import opened Text
  import opened RunCatalog
  import opened CatalogRules

  /** Every run but this one is as it was, and no other is new. */
  ghost predicate OthersStay(c: Catalog, d: Catalog, id: string) {
    forall k {:trigger c.runs[k]} {:trigger d.runs[k]} :: k != id ==>
      (k in c.runs <==> k in d.runs) && (k in c.runs ==> d.runs[k] == c.runs[k])
  }

  /** The place's selection names this run, and it is prepared. */
  predicate Awaits(c: Catalog, owner: int, channel: int, id: string) {
    && (owner, channel) in c.selected && c.selected[(owner, channel)] == id
    && id in c.runs && c.runs[id].status == Prepared
  }

  /** The run of this owner and channel ended without completing. */
  predicate Unfinished(c: Catalog, owner: int, channel: int, id: string) {
    id in c.runs && c.runs[id].owner == owner && c.runs[id].channel == channel
    && (c.runs[id].status == Stopped || c.runs[id].status == Exhausted || c.runs[id].status == Failed
        || c.runs[id].status == Interrupted)
  }

  /** A reservation of the owner or of the channel is held. */
  ghost predicate Held(c: Catalog, owner: int, channel: int) {
    exists p: Place {:trigger c.reservations[p]} :: p in c.reservations && (p.0 == owner || p.1 == channel)
  }

  lemma {:induction false} HeldIff(c: Catalog, owner: int, channel: int)
    ensures Conflicts(c, owner, channel) <==> Held(c, owner, channel)
  {
    if Conflicts(c, owner, channel) {
      var p :| p in c.reservations && (p.0 == owner || p.1 == channel);
      var token := c.reservations[p];
    }
  }

  /** Some run of the owner or of the channel is active. */
  ghost predicate Busy(c: Catalog, owner: int, channel: int) {
    exists id {:trigger c.runs[id]} :: id in c.runs && c.runs[id].status == Active
      && (c.runs[id].owner == owner || c.runs[id].channel == channel)
  }

  lemma {:induction false} BusyIff(c: Catalog, owner: int, channel: int)
    ensures ActiveThere(c, owner, channel) <==> Busy(c, owner, channel)
  {
    if ActiveThere(c, owner, channel) {
      var id :| id in c.runs && c.runs[id].status.Active?
        && (c.runs[id].owner == owner || c.runs[id].channel == channel);
      assert c.runs[id].status == Active;
    }
    if Busy(c, owner, channel) {
      var id :| id in c.runs && c.runs[id].status == Active
        && (c.runs[id].owner == owner || c.runs[id].channel == channel);
    }
  }

  // Acquiring

  /** The run an acquire gives: the prepared one that is selected, else the one to be
      resumed if it is unfinished, else a new one. */
  ghost predicate Chosen(c: Catalog, owner: int, channel: int, resume: Option<string>, id: string, run: string) {
    || Awaits(c, owner, channel, run)
    || ((forall k :: !Awaits(c, owner, channel, k)) && resume == Some(run) && Unfinished(c, owner, channel, run))
    || ((forall k :: !Awaits(c, owner, channel, k)) && run == id
        && (resume.Some? ==> !Unfinished(c, owner, channel, resume.value)))
  }

  /** An acquire is refused exactly under a reservation of the owner or channel, and then
      changes nothing; it fails exactly if it may not and the run cannot be written. */
  lemma {:induction false} AcquireRefusedIff(c: Catalog, owner: int, channel: int, resume: Option<string>, id: string,
                                             writes: bool)
    requires Sound(c)
    ensures var r := Perform(c, Acquiring(owner, channel, resume, id, writes));
      && (r.answer == Refused <==> Held(c, owner, channel)) && (r.answer == Refused ==> r.catalog == c)
      && (r.answer == WriteFailed <==> !Held(c, owner, channel) && !writes)
  {
    HeldIff(c, owner, channel);
  }

  /** Otherwise the chosen run becomes active and is given. It is the only one that changes,
      the place has no selection any more, and only a new run that cannot be written is
      left out. */
  lemma {:induction false} AcquireGives(c: Catalog, owner: int, channel: int, resume: Option<string>, id: string,
                                        writes: bool)
    returns (run: string)
    requires Sound(c) && id !in c.runs && !Held(c, owner, channel)
    ensures Chosen(c, owner, channel, resume, id, run)
    ensures var r := Perform(c, Acquiring(owner, channel, resume, id, writes));
      && (writes ==> r.answer == Given(run)) && OthersStay(c, r.catalog, run)
      && (writes || run != id ==> run in r.catalog.runs && r.catalog.runs[run] == Run(owner, channel, Active))
      && (!writes && run == id ==> run !in r.catalog.runs)
      && r.catalog.selected == c.selected - {(owner, channel)} && r.catalog.reservations == c.reservations
  {
    var p := (owner, channel);
    HeldIff(c, owner, channel);
    run := if PreparedThere(c, p) then c.selected[p]
           else if resume.Some? && ResumableThere(c, resume.value, p) then resume.value else id;
  }

  // Preparing and resuming

  /** The prepared run a selection of another run at this place interrupts. */
  predicate Interrupts(c: Catalog, owner: int, channel: int, id: string, other: string) {
    other != id && Awaits(c, owner, channel, other)
  }

  /** Run `id` is prepared and selected at this place alone; the run that was prepared and
      selected there before is interrupted; nothing else changes. */
  ghost predicate NewlySelected(c: Catalog, d: Catalog, owner: int, channel: int, id: string) {
    && id in d.runs && d.runs[id] == Run(owner, channel, Prepared)
    && (forall k {:trigger d.runs[k]} {:trigger c.runs[k]} :: k != id ==>
          (k in c.runs <==> k in d.runs)
          && (k in c.runs ==>
                d.runs[k] == if Interrupts(c, owner, channel, id, k) then c.runs[k].(status := Interrupted)
                             else c.runs[k]))
    && (forall p: Place {:trigger d.selected[p]} {:trigger c.selected[p]} ::
          if p == (owner, channel) then p in d.selected && d.selected[p] == id
          else (p in d.selected <==> p in c.selected && c.selected[p] != id)
               && (p in d.selected ==> d.selected[p] == c.selected[p]))
  }

  /** A run is prepared exactly if nothing of its owner or channel is reserved or active. */
  lemma {:induction false} PrepareGivesIff(c: Catalog, owner: int, channel: int, id: string)
    requires Sound(c) && id !in c.runs
    ensures var r := Perform(c, Preparing(owner, channel, id, true, true));
      if Held(c, owner, channel) || Busy(c, owner, channel) then r == Result(c, Refused)
      else r.answer == Given(id) && NewlySelected(c, r.catalog, owner, channel, id)
           && r.catalog.reservations == c.reservations
  {
    HeldIff(c, owner, channel);
    BusyIff(c, owner, channel);
  }

  /** A resume prepares its run in the channel exactly if the owner's and not active. */
  lemma {:induction false} ResumeGivesIff(c: Catalog, owner: int, channel: int, id: string)
    requires Sound(c)
    ensures var r := Perform(c, Resuming(owner, channel, id, true, true));
      if id in c.runs && c.runs[id].owner == owner && c.runs[id].status != Active
      then r.answer == Given(id) && NewlySelected(c, r.catalog, owner, channel, id)
           && r.catalog.reservations == c.reservations
      else r == Result(c, Refused)
  {}

  // Reservations

  /** A reservation is given exactly if nothing of the owner or channel is reserved or
      active, and is then the only thing that is new. */
  lemma {:induction false} ReserveGivesIff(c: Catalog, owner: int, channel: int, token: nat)
    ensures var r := Perform(c, Reserving(owner, channel, token));
      && (r.answer == Refused <==> Held(c, owner, channel) || Busy(c, owner, channel))
      && (r.answer == Refused ==> r.catalog == c)
      && (r.answer != Refused ==>
            (r.answer == Accepted && r.catalog.runs == c.runs && r.catalog.selected == c.selected)
            && (forall p: Place {:trigger r.catalog.reservations[p]} {:trigger c.reservations[p]} ::
                  if p == (owner, channel) then p in r.catalog.reservations && r.catalog.reservations[p] == token
                  else (p in r.catalog.reservations <==> p in c.reservations)
                       && (p in c.reservations ==> r.catalog.reservations[p] == c.reservations[p])))
  {
    HeldIff(c, owner, channel);
    BusyIff(c, owner, channel);
  }

  /** The operation gives back the reservation of this place with this token. */
  predicate GivesBack(op: Op, p: Place, token: nat) {
    || (op.Cancelling? && (op.owner, op.channel) == p && op.token == token)
    || (op.PreparingReserved? && (op.owner, op.channel) == p && op.token == token)
  }

  /** A reservation goes exactly by its own token, and no operation changes its token. */
  lemma {:induction false} ReservationStaysIff(c: Catalog, op: Op, p: Place)
    requires p in c.reservations
    ensures var d := Perform(c, op).catalog;
      && (p in d.reservations <==> !GivesBack(op, p, c.reservations[p]))
      && (p in d.reservations ==> d.reservations[p] == c.reservations[p])
  {
    var token := c.reservations[p];
    assert op.Reserving? && (op.owner, op.channel) == p ==> Held(c, op.owner, op.channel);
    if op.Reserving? {
      HeldIff(c, op.owner, op.channel);
    }
  }

  /** Under its own token a run is prepared and the reservation given back; under any other
      token nothing happens. */
  lemma {:induction false} PrepareReservedGivesIff(c: Catalog, owner: int, channel: int, token: nat, id: string)
    requires Sound(c) && id !in c.runs
    ensures var r := Perform(c, PreparingReserved(owner, channel, token, id, true, true));
      if (owner, channel) in c.reservations && c.reservations[(owner, channel)] == token
      then r.answer == Given(id) && NewlySelected(c, r.catalog, owner, channel, id)
           && r.catalog.reservations == c.reservations - {(owner, channel)}
      else r == Result(c, Refused)
  {}

  // Ending and deleting

  /** A run ends in one of the five final states, and only its status changes. */
  lemma {:induction false} FinishEnds(c: Catalog, id: string, status: Status, writes: bool)
    ensures var r := Perform(c, Finishing(id, status, writes));
      if id in c.runs && (status == Completed || status == Stopped || status == Exhausted || status == Failed
                          || status == Interrupted)
      then (r.answer == if writes then Accepted else WriteFailed)
           && id in r.catalog.runs && r.catalog.runs[id] == Run(c.runs[id].owner, c.runs[id].channel, status)
           && OthersStay(c, r.catalog, id)
           && r.catalog.selected == c.selected && r.catalog.reservations == c.reservations
      else r == Result(c, Refused)
  {}

  /** A run is deleted exactly for its owner, when it is not active and its directory can be
      moved; with it go the selections that name it, and nothing else. */
  lemma {:induction false} DeleteRemovesIff(c: Catalog, owner: int, id: string, moved: bool)
    ensures var r := Perform(c, Deleting(owner, id, moved));
      && (r.answer == Accepted <==> id in c.runs && c.runs[id].owner == owner && c.runs[id].status != Active && moved)
      && (r.answer != Accepted ==> r.catalog == c)
      && (r.answer == Accepted ==>
            (id !in r.catalog.runs && OthersStay(c, r.catalog, id) && r.catalog.reservations == c.reservations)
            && forall p: Place {:trigger r.catalog.selected[p]} {:trigger c.selected[p]} ::
                 (p in r.catalog.selected <==> p in c.selected && c.selected[p] != id)
                 && (p in r.catalog.selected ==> r.catalog.selected[p] == c.selected[p]))
  {}

  /** No operation but a deletion makes a run disappear, and none changes its owner. */
  lemma {:induction false} RunsStay(c: Catalog, op: Op, k: string)
    requires Allowed(c, op) && k in c.runs && !op.Deleting?
    ensures k in Perform(c, op).catalog.runs && Perform(c, op).catalog.runs[k].owner == c.runs[k].owner
  {}

  // Scanning

  /** What a scan makes of a run by itself: none is active at startup. */
  function AtRest(r: Run): Run {
    if r.status == Active then Run(r.owner, r.channel, Interrupted) else r
  }

  /** Of two entries with one id the later counts. */
  lemma {:induction false} FoundLast(entries: seq<(string, Run)>, n: nat, i: nat)
    requires i < n <= |entries| && forall j :: i < j < n ==> entries[j].0 != entries[i].0
    ensures var found := RunCatalog.Found(entries, n);
      entries[i].0 in found && found[entries[i].0] == AtRest(entries[i].1)
  {
    if i < n - 1 {
      FoundLast(entries, n - 1, i);
    }
  }

  lemma {:induction false} FoundFrom(entries: seq<(string, Run)>, n: nat, id: string)
    requires n <= |entries| && id in RunCatalog.Found(entries, n)
    ensures exists j :: 0 <= j < n && entries[j].0 == id
  {
    if entries[n - 1].0 != id {
      FoundFrom(entries, n - 1, id);
    }
  }

  /** Selecting prepared runs in order interrupts some of them and changes nothing else. */
  lemma {:induction false} SelectedHolds(c: Catalog, order: seq<string>, n: nat, id: string)
    requires n <= |order|
    ensures var d := SelectedInOrder(c, order, n);
      && d.runs.Keys == c.runs.Keys && d.reservations == c.reservations
      && (id in c.runs ==>
            (d.runs[id] == c.runs[id]
             || (c.runs[id].status == Prepared && d.runs[id] == c.runs[id].(status := Interrupted))))
  {
    if n > 0 {
      SelectedHolds(c, order, n - 1, id);
    }
  }

  /** A scan finds exactly the runs with metadata, each as it was left: an active one is
      interrupted, a prepared one may be for another one selected, any other is unchanged. */
  lemma {:induction false} ScannedHolds(entries: seq<(string, Run)>, order: seq<string>, id: string, i: nat)
    requires i < |entries| && entries[i].0 == id && forall j :: i < j < |entries| ==> entries[j].0 != id
    ensures var d, r := Scanned(entries, order), entries[i].1;
      && d.reservations == map[] && id in d.runs && d.runs[id].owner == r.owner && d.runs[id].channel == r.channel
      && (r.status == Active ==> d.runs[id].status == Interrupted)
      && (r.status == Prepared ==> d.runs[id].status == Prepared || d.runs[id].status == Interrupted)
      && (r.status != Active && r.status != Prepared ==> d.runs[id] == r)
      && (forall k :: k in d.runs ==> exists j :: 0 <= j < |entries| && entries[j].0 == k)
  {
    var found := Catalog(RunCatalog.Found(entries, |entries|), map[], map[]);
    FoundLast(entries, |entries|, i);
    SelectedHolds(found, order, |order|, id);
    forall k | k in Scanned(entries, order).runs
      ensures exists j :: 0 <= j < |entries| && entries[j].0 == k
    {
      FoundFrom(entries, |entries|, k);
    }
  }

  lemma {:induction false} SelectsOnly(c: Catalog, id: string, p: Place, k: string)
    requires id in c.runs
    ensures var d, q := SelectPrepared(c, id, true).catalog, PlaceOf(c.runs[id]);
      && q in d.selected && d.selected[q] == id
      && (p in c.selected && c.selected[p] == k && k != id && q != p ==> p in d.selected && d.selected[p] == k)
  {}

  lemma {:induction false} NextSelected(c: Catalog, order: seq<string>, n: nat) returns (d: Catalog)
    requires 0 < n <= |order| && order[n - 1] in c.runs
    ensures d == SelectedInOrder(c, order, n - 1) && order[n - 1] in d.runs
    ensures PlaceOf(d.runs[order[n - 1]]) == PlaceOf(c.runs[order[n - 1]])
    ensures SelectedInOrder(c, order, n) == SelectPrepared(d, order[n - 1], true).catalog
  {
    d := SelectedInOrder(c, order, n - 1);
    SelectedHolds(c, order, n - 1, order[n - 1]);
  }

  /** Of the prepared runs of one place the last in the order is the selected one. */
  lemma {:induction false} LastIsSelected(c: Catalog, order: seq<string>, n: nat, k: nat)
    requires k < n <= |order| && forall i {:trigger order[i]} :: 0 <= i < |order| ==> order[i] in c.runs
    requires forall i {:trigger order[i]} :: k < i < n ==>
      order[i] != order[k] && PlaceOf(c.runs[order[i]]) != PlaceOf(c.runs[order[k]])
    ensures var d, p := SelectedInOrder(c, order, n), PlaceOf(c.runs[order[k]]);
      p in d.selected && d.selected[p] == order[k]
  {
    var d := NextSelected(c, order, n);
    SelectsOnly(d, order[n - 1], PlaceOf(c.runs[order[k]]), order[k]);
    if k < n - 1 {
      LastIsSelected(c, order, n - 1, k);
    }
  }
}
