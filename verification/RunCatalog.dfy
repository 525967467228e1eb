/** The catalog of runs: which run is prepared, selected, active or reserved, and for whom. */
module RunCatalog {
  import opened Text

  datatype Status = Active | Prepared | Completed | Stopped | Exhausted | Failed | Interrupted | Unknown(text: string)

  predicate Terminal(s: Status) {
    s.Completed? || s.Stopped? || s.Exhausted? || s.Failed? || s.Interrupted?
  }

  predicate Resumable(s: Status) {
    Terminal(s) && !s.Completed?
  }

  datatype Run = Run(owner: int, channel: int, status: Status)

  /** An owner in a channel. */
  type Place = (int, int)

  datatype Catalog = Catalog(runs: map<string, Run>, selected: map<Place, string>, reservations: map<Place, nat>)

  const EMPTY := Catalog(map[], map[], map[])

  /** What an operation answers: a run, nothing, a refusal, or a failed write of run.json. */
  datatype Answer = Given(id: string) | Accepted | Refused | WriteFailed

  datatype Result = Result(catalog: Catalog, answer: Answer)

  function PlaceOf(r: Run): Place { (r.owner, r.channel) }

  predicate Conflicts(c: Catalog, owner: int, channel: int) {
    exists p :: p in c.reservations && (p.0 == owner || p.1 == channel)
  }

  predicate ActiveThere(c: Catalog, owner: int, channel: int) {
    exists id :: id in c.runs && c.runs[id].status.Active?
      && (c.runs[id].owner == owner || c.runs[id].channel == channel)
  }

  predicate ResetAllowed(c: Catalog, owner: int, channel: int) {
    !Conflicts(c, owner, channel) && !ActiveThere(c, owner, channel)
  }

  function WithStatus(c: Catalog, id: string, status: Status): Catalog
    requires id in c.runs
  {
    c.(runs := c.runs[id := c.runs[id].(status := status)])
  }

  /** The selection without the entries that name this run. */
  function Unselected(selected: map<Place, string>, id: string): map<Place, string> {
    map p | p in selected && selected[p] != id :: selected[p]
  }

  /** The run a selection at this place would displace: another one, still prepared. */
  predicate Displaces(c: Catalog, p: Place, id: string) {
    && p in c.selected && c.selected[p] != id && c.selected[p] in c.runs
    && c.runs[c.selected[p]].status.Prepared?
  }

  /** _select_prepared; without a successful write it stops where it displaces a run. */
  function SelectPrepared(c: Catalog, id: string, writes: bool): Result
    requires id in c.runs
  {
    var p := PlaceOf(c.runs[id]);
    var d := c.(selected := Unselected(c.selected, id));
    var e := if Displaces(d, p, id) then WithStatus(d, d.selected[p], Interrupted) else d;
    if Displaces(d, p, id) && !writes then Result(e, WriteFailed)
    else Result(e.(selected := e.selected[p := id]), Given(id))
  }

  /** A new run; a failed first write leaves no trace of it. */
  function Create(c: Catalog, id: string, owner: int, channel: int, status: Status, writes: bool): Result {
    if !writes then Result(c, WriteFailed)
    else Result(c.(runs := c.runs[id := Run(owner, channel, status)]), Given(id))
  }

  function Activate(c: Catalog, id: string, channel: int, writes: bool): Result
    requires id in c.runs
  {
    Result(c.(runs := c.runs[id := c.runs[id].(channel := channel, status := Active)]),
           if writes then Given(id) else WriteFailed)
  }

  function ReserveReset(c: Catalog, owner: int, channel: int, token: nat): Result {
    if !ResetAllowed(c, owner, channel) then Result(c, Refused)
    else Result(c.(reservations := c.reservations[(owner, channel) := token]), Accepted)
  }

  predicate Holds(c: Catalog, p: Place, token: nat) {
    p in c.reservations && c.reservations[p] == token
  }

  function CancelReset(c: Catalog, owner: int, channel: int, token: nat): Result {
    if Holds(c, (owner, channel), token)
    then Result(c.(reservations := c.reservations - {(owner, channel)}), Accepted) else Result(c, Accepted)
  }

  function PrepareReserved(c: Catalog, owner: int, channel: int, token: nat, id: string, first: bool,
                           second: bool): Result {
    if !Holds(c, (owner, channel), token) then Result(c, Refused)
    else
      var r := Create(c, id, owner, channel, Prepared, first);
      var s := if r.answer.Given? then SelectPrepared(r.catalog, id, second) else r;
      s.(catalog := s.catalog.(reservations := s.catalog.reservations - {(owner, channel)}))
  }

  function Prepare(c: Catalog, owner: int, channel: int, id: string, first: bool, second: bool): Result {
    if !ResetAllowed(c, owner, channel) then Result(c, Refused)
    else
      var r := Create(c, id, owner, channel, Prepared, first);
      if r.answer.Given? then SelectPrepared(r.catalog, id, second) else r
  }

  predicate PreparedThere(c: Catalog, p: Place) {
    p in c.selected && c.selected[p] in c.runs && c.runs[c.selected[p]].status.Prepared?
  }

  predicate ResumableThere(c: Catalog, id: string, p: Place) {
    id in c.runs && PlaceOf(c.runs[id]) == p && Resumable(c.runs[id].status)
  }

  function Acquire(c: Catalog, owner: int, channel: int, resume: Option<string>, id: string, writes: bool): Result {
    var p := (owner, channel);
    if Conflicts(c, owner, channel) then Result(c, Refused)
    else
      var d := c.(selected := c.selected - {p});
      if PreparedThere(c, p) then Activate(d, c.selected[p], channel, writes)
      else if resume.Some? && ResumableThere(c, resume.value, p) then Activate(d, resume.value, channel, writes)
      else Create(d, id, owner, channel, Active, writes)
  }

  function Resume(c: Catalog, owner: int, channel: int, id: string, first: bool, second: bool): Result {
    if id !in c.runs || c.runs[id].owner != owner || c.runs[id].status.Active? then Result(c, Refused)
    else
      var d := c.(runs := c.runs[id := c.runs[id].(channel := channel, status := Prepared)]);
      if !first then Result(d, WriteFailed) else SelectPrepared(d, id, second)
  }

  function Finish(c: Catalog, id: string, status: Status, writes: bool): Result {
    if !Terminal(status) || id !in c.runs then Result(c, Refused)
    else Result(WithStatus(c, id, status), if writes then Accepted else WriteFailed)
  }

  /** _purge: the run's directory is moved away first; if that fails nothing changes. */
  function Purge(c: Catalog, id: string, moved: bool): Result
    requires id in c.runs
  {
    if c.runs[id].status.Active? then Result(c, Refused)
    else if !moved then Result(c, WriteFailed)
    else Result(Catalog(c.runs - {id}, Unselected(c.selected, id), c.reservations), Accepted)
  }

  function Delete(c: Catalog, owner: int, id: string, moved: bool): Result {
    if id !in c.runs || c.runs[id].owner != owner then Result(c, Refused) else Purge(c, id, moved)
  }

  // Scanning

  /** The runs found at startup; no run is active then. */
  function Found(entries: seq<(string, Run)>, n: nat): map<string, Run>
    requires n <= |entries|
  {
    if n == 0 then map[]
    else
      var (id, r) := entries[n - 1];
      Found(entries, n - 1)[id := if r.status.Active? then r.(status := Interrupted) else r]
  }

  function SelectedInOrder(c: Catalog, order: seq<string>, n: nat): Catalog
    requires n <= |order|
  {
    if n == 0 then c
    else
      var d := SelectedInOrder(c, order, n - 1);
      if order[n - 1] in d.runs then SelectPrepared(d, order[n - 1], true).catalog else d
  }

  /** The catalog after _scan, the prepared runs being selected in the given order. */
  function Scanned(entries: seq<(string, Run)>, order: seq<string>): Catalog {
    SelectedInOrder(Catalog(Found(entries, |entries|), map[], map[]), order, |order|)
  }

  // The catalog object

  class Runs {
    var runs: map<string, Run>
    var selected: map<Place, string>
    var reservations: map<Place, nat>

    function Contents(): Catalog
      reads this
    {
      Catalog(runs, selected, reservations)
    }

    constructor ()
      ensures Contents() == EMPTY
    {
      runs, selected, reservations := map[], map[], map[];
    }

    method SelectPreparedRun(id: string, writes: bool) returns (answer: Answer)
      requires id in runs
      modifies this
      ensures Result(Contents(), answer) == SelectPrepared(old(Contents()), id, writes)
    {
      var places := selected.Keys;
      var kept := selected;
      while places != {}
        invariant places <= selected.Keys && selected == old(selected)
        invariant kept == map p | p in selected && (p in places || selected[p] != id) :: selected[p]
        decreases |places|
      {
        var p :| p in places;
        if selected[p] == id {
          kept := kept - {p};
        }
        places := places - {p};
      }
      selected := kept;
      assert selected == Unselected(old(selected), id);
      var p := PlaceOf(runs[id]);
      if p in selected && selected[p] != id && selected[p] in runs && runs[selected[p]].status.Prepared? {
        runs := runs[selected[p] := runs[selected[p]].(status := Interrupted)];
        if !writes {
          return WriteFailed;
        }
      }
      selected := selected[p := id];
      answer := Given(id);
    }

    method CreateRun(id: string, owner: int, channel: int, status: Status, writes: bool) returns (answer: Answer)
      requires id !in runs
      modifies this
      ensures Result(Contents(), answer) == Create(old(Contents()), id, owner, channel, status, writes)
    {
      if !writes {
        return WriteFailed;
      }
      runs := runs[id := Run(owner, channel, status)];
      answer := Given(id);
    }

    method ActivateRun(id: string, channel: int, writes: bool) returns (answer: Answer)
      requires id in runs
      modifies this
      ensures Result(Contents(), answer) == Activate(old(Contents()), id, channel, writes)
    {
      runs := runs[id := runs[id].(channel := channel, status := Active)];
      answer := if writes then Given(id) else WriteFailed;
    }

    method Reserve(owner: int, channel: int, token: nat) returns (answer: Answer)
      modifies this
      ensures Result(Contents(), answer) == ReserveReset(old(Contents()), owner, channel, token)
    {
      if !ResetAllowed(Contents(), owner, channel) {
        return Refused;
      }
      reservations := reservations[(owner, channel) := token];
      answer := Accepted;
    }

    method Cancel(owner: int, channel: int, token: nat) returns (answer: Answer)
      modifies this
      ensures Result(Contents(), answer) == CancelReset(old(Contents()), owner, channel, token)
    {
      if Holds(Contents(), (owner, channel), token) {
        reservations := reservations - {(owner, channel)};
      }
      answer := Accepted;
    }

    method PrepareReservedRun(owner: int, channel: int, token: nat, id: string, first: bool, second: bool)
      returns (answer: Answer)
      requires id !in runs
      modifies this
      ensures Result(Contents(), answer) == PrepareReserved(old(Contents()), owner, channel, token, id, first, second)
    {
      if !Holds(Contents(), (owner, channel), token) {
        return Refused;
      }
      answer := CreateRun(id, owner, channel, Prepared, first);
      if answer.Given? {
        answer := SelectPreparedRun(id, second);
      }
      reservations := reservations - {(owner, channel)};
    }

    method PrepareRun(owner: int, channel: int, id: string, first: bool, second: bool) returns (answer: Answer)
      requires id !in runs
      modifies this
      ensures Result(Contents(), answer) == Prepare(old(Contents()), owner, channel, id, first, second)
    {
      if !ResetAllowed(Contents(), owner, channel) {
        return Refused;
      }
      answer := CreateRun(id, owner, channel, Prepared, first);
      if answer.Given? {
        answer := SelectPreparedRun(id, second);
      }
    }

    method AcquireRun(owner: int, channel: int, resume: Option<string>, id: string, writes: bool)
      returns (answer: Answer)
      requires id !in runs
      modifies this
      ensures Result(Contents(), answer) == Acquire(old(Contents()), owner, channel, resume, id, writes)
    {
      if Conflicts(Contents(), owner, channel) {
        return Refused;
      }
      var p := (owner, channel);
      var chosen := if p in selected then Some(selected[p]) else None;
      selected := selected - {p};
      if chosen.Some? && chosen.value in runs && runs[chosen.value].status.Prepared? {
        answer := ActivateRun(chosen.value, channel, writes);
        return;
      }
      if resume.Some? && resume.value in runs && PlaceOf(runs[resume.value]) == p
        && Resumable(runs[resume.value].status) {
        answer := ActivateRun(resume.value, channel, writes);
        return;
      }
      answer := CreateRun(id, owner, channel, Active, writes);
    }

    method ResumeRun(owner: int, channel: int, id: string, first: bool, second: bool) returns (answer: Answer)
      modifies this
      ensures Result(Contents(), answer) == Resume(old(Contents()), owner, channel, id, first, second)
    {
      if id !in runs || runs[id].owner != owner {
        return Refused;
      }
      if runs[id].status.Active? {
        return Refused;
      }
      runs := runs[id := runs[id].(channel := channel, status := Prepared)];
      if !first {
        return WriteFailed;
      }
      answer := SelectPreparedRun(id, second);
    }

    method FinishRun(id: string, status: Status, writes: bool) returns (answer: Answer)
      modifies this
      ensures Result(Contents(), answer) == Finish(old(Contents()), id, status, writes)
    {
      if !Terminal(status) || id !in runs {
        return Refused;
      }
      runs := runs[id := runs[id].(status := status)];
      answer := if writes then Accepted else WriteFailed;
    }

    method DeleteRun(owner: int, id: string, moved: bool) returns (answer: Answer)
      modifies this
      ensures Result(Contents(), answer) == Delete(old(Contents()), owner, id, moved)
    {
      if id !in runs || runs[id].owner != owner {
        return Refused;
      }
      if runs[id].status.Active? {
        return Refused;
      }
      if !moved {
        return WriteFailed;
      }
      selected := Unselected(selected, id);
      runs := runs - {id};
      answer := Accepted;
    }

    method Scan(entries: seq<(string, Run)>, order: seq<string>)
      modifies this
      ensures Contents() == Scanned(entries, order)
    {
      runs, selected, reservations := map[], map[], map[];
      for i := 0 to |entries|
        invariant Contents() == Catalog(Found(entries, i), map[], map[])
      {
        var (id, r) := entries[i];
        runs := runs[id := if r.status.Active? then r.(status := Interrupted) else r];
      }
      ghost var c := Contents();
      for i := 0 to |order|
        invariant Contents() == SelectedInOrder(c, order, i)
      {
        if order[i] in runs {
          var answer := SelectPreparedRun(order[i], true);
        }
      }
    }
  }
}
