/** The research ledger: evidence, hypotheses and conclusions, what each update does to
    them, and when a conclusion counts as valid. */
module Ledger {
  import opened Text

  // Insertion-ordered dictionaries

  type Table<T> = seq<(string, T)>

  function Lookup<T>(t: Table<T>, k: string): Option<T> {
    if t == [] then None else if t[0].0 == k then Some(t[0].1) else Lookup(t[1..], k)
  }

  /** Assignment keeps the place of a known key and adds a new one at the end. */
  function Put<T>(t: Table<T>, k: string, v: T): Table<T> {
    if t == [] then [(k, v)] else if t[0].0 == k then [(k, v)] + t[1..] else [t[0]] + Put(t[1..], k, v)
  }

  // Entries

  datatype Status = Active | Rejected | Confirmed

  datatype Transition = Transition(revision: nat, status: Status, evidence: string, note: string)

  datatype Hypothesis = Hypothesis(id: string, statement: string, status: Status, revision: nat,
                                   transitions: seq<Transition>)

  datatype Evidence = Evidence(id: string, summary: string, source: string, retracted: bool, note: string)

  datatype Conclusion = Conclusion(id: string, statement: string, premises: map<string, nat>)

  datatype State = State(goal: string, revision: nat, evidence: Table<Evidence>,
                         hypotheses: Table<Hypothesis>, conclusions: Table<Conclusion>)

  const EMPTY := State("", 0, [], [], [])

  datatype Result = Result(state: State, refused: bool)

  // Text

  /** _clip: whitespace collapsed, at most n characters and an ellipsis. */
  function Short(text: string, n: nat): string {
    var t := Collapse(text);
    if |t| <= n then t else RStrip(t[..n]) + "…"
  }

  function Or(a: string, b: string): string { if a != "" then a else b }

  // Updates

  function SetGoal(s: State, goal: string): State {
    var g := Short(goal, 600);
    if g != "" && g != s.goal then s.(goal := g, revision := s.revision + 1) else s
  }

  datatype EvidenceUpdate = EvidenceUpdate(id: string, summary: string, source: string, retracted: Option<bool>,
                                           note: string)

  /** What registering or correcting an item makes of it. */
  function Corrected(existing: Option<Evidence>, id: string, u: EvidenceUpdate): Evidence {
    match existing
    case None =>
      Evidence(id, Short(u.summary, 220), Short(u.source, 160), u.retracted == Some(true), Short(u.note, 120))
    case Some(e) =>
      Evidence(id, Or(Short(u.summary, 220), e.summary), Or(Short(u.source, 160), e.source),
               if u.retracted.None? then e.retracted else u.retracted.value, Or(Short(u.note, 120), e.note))
  }

  function AddEvidence(s: State, u: EvidenceUpdate): Result {
    var id := Strip(u.id);
    if id == "" then Result(s, true)
    else
      var record := Corrected(Lookup(s.evidence, id), id, u);
      if Lookup(s.evidence, id) == Some(record) then Result(s, false)
      else Result(s.(evidence := Put(s.evidence, id, record), revision := s.revision + 1), false)
  }

  /** The cited evidence may support a transition. */
  predicate Citable(s: State, id: string, optional: bool) {
    if Strip(id) == "" then optional
    else Lookup(s.evidence, Strip(id)).Some? && !Lookup(s.evidence, Strip(id)).value.retracted
  }

  function Cited(h: Hypothesis): seq<string> { CitedIn(h.transitions, |h.transitions|) }

  function CitedIn(ts: seq<Transition>, n: nat): seq<string>
    requires n <= |ts|
  {
    if n == 0 then [] else CitedIn(ts, n - 1) + if ts[n - 1].evidence != "" then [ts[n - 1].evidence] else []
  }

  function Moved(h: Hypothesis, status: Status, evidence: string, note: string): Hypothesis {
    h.(status := status, revision := h.revision + 1,
       transitions := h.transitions + [Transition(h.revision + 1, status, evidence, Short(note, 120))])
  }

  predicate MayMove(s: State, h: Hypothesis, status: Status, evidence: string, reopen: bool) {
    && !(h.status.Rejected? && status.Active? && !reopen)
    && Citable(s, Strip(evidence), !reopen && status.Active?)
    && (reopen ==> Strip(evidence) !in Cited(h))
  }

  function Move(s: State, h: Hypothesis, status: Status, evidence: string, note: string, reopen: bool): Result {
    if !MayMove(s, h, status, evidence, reopen) then Result(s, true)
    else Result(s.(hypotheses := Put(s.hypotheses, h.id, Moved(h, status, Strip(evidence), note)),
                   revision := s.revision + 1), false)
  }

  /** A declaration; `status` is None where the text names no status. */
  datatype Declaration = Declaration(id: string, statement: string, status: Option<Status>, evidence: string,
                                     note: string)

  function Reworded(s: State, h: Hypothesis, statement: string): State {
    if statement != "" && statement != h.statement
    then s.(hypotheses := Put(s.hypotheses, h.id, h.(statement := statement)), revision := s.revision + 1) else s
  }

  function Declare(s: State, d: Declaration): Result {
    var id := Strip(d.id);
    if id == "" || d.status.None? then Result(s, true)
    else
      match Lookup(s.hypotheses, id)
      case None =>
        if !Citable(s, d.evidence, true) then Result(s, true)
        else
          var h := Hypothesis(id, Short(d.statement, 220), d.status.value, 1,
                              [Transition(1, d.status.value, d.evidence, Short(d.note, 120))]);
          Result(s.(hypotheses := Put(s.hypotheses, id, h), revision := s.revision + 1), false)
      case Some(h) =>
        var statement := Short(d.statement, 220);
        var t := Reworded(s, h, statement);
        if d.status.value == h.status then Result(t, false)
        else
          var g := if statement != "" then h.(statement := statement) else h;
          Move(t, g, d.status.value, d.evidence, d.note, false)
  }

  function Reopen(s: State, id: string, evidence: string, note: string): Result {
    match Lookup(s.hypotheses, Strip(id))
    case None => Result(s, true)
    case Some(h) => Move(s, h, Active, evidence, note, true)
  }

  function PinnedRevision(s: State, premise: string): nat {
    match Lookup(s.hypotheses, premise)
    case None => 0
    case Some(h) => h.revision
  }

  /** The premises of a conclusion, each pinned to its hypothesis' revision. */
  function Pinned(s: State, premises: seq<string>, n: nat): map<string, nat>
    requires n <= |premises|
  {
    if n == 0 then map[]
    else
      var p := Strip(premises[n - 1]);
      if p == "" then Pinned(s, premises, n - 1) else Pinned(s, premises, n - 1)[p := PinnedRevision(s, p)]
  }

  function AddConclusion(s: State, id: string, statement: string, premises: seq<string>): Result {
    var key := Strip(id);
    if key == "" then Result(s, true)
    else
      var c := Conclusion(key, Short(statement, 220), Pinned(s, premises, |premises|));
      if Lookup(s.conclusions, key) == Some(c) then Result(s, false)
      else Result(s.(conclusions := Put(s.conclusions, key, c), revision := s.revision + 1), false)
  }

  // Derived validity

  predicate Stale(s: State, premise: string, pinned: nat) {
    match Lookup(s.hypotheses, premise)
    case None => true
    case Some(h) => h.revision != pinned || h.status.Rejected?
  }

  /** A conclusion is valid while none of its premises is stale. */
  predicate Valid(s: State, c: Conclusion) {
    forall p :: p in c.premises ==> !Stale(s, p, c.premises[p])
  }

  // Batches

  /** One evidence item of a batch; `retracts` names the item it corrects. */
  datatype EvidenceItem = EvidenceItem(update: EvidenceUpdate, retracts: string)

  datatype HypothesisItem = Declares(declaration: Declaration) | Reopens(id: string, evidence: string, note: string)

  datatype ConclusionItem = ConclusionItem(id: string, statement: string, premises: seq<string>)

  datatype Batch = Batch(goal: string, evidence: seq<EvidenceItem>, hypotheses: seq<HypothesisItem>,
                         conclusions: seq<ConclusionItem>)

  /** The item contradicts itself, or has nothing to correct. */
  predicate Contradictory(s: State, i: EvidenceItem) {
    var id, target := Strip(i.update.id), Strip(i.retracts);
    var existing := Lookup(s.evidence, id);
    || (target != "" && i.update.retracted == Some(true))
    || (target != "" && target == id)
    || (target != "" && existing.Some? && existing.value.retracted)
    || (i.update.retracted == Some(true) && existing.None?)
    || (target != "" && id == "")
  }

  /** The update that retracts the target of a correction. */
  function Retraction(s: State, i: EvidenceItem): Option<EvidenceUpdate> {
    var target := Strip(i.retracts);
    if target == "" || Lookup(s.evidence, target).None? then None
    else
      var t := Lookup(s.evidence, target).value;
      Some(EvidenceUpdate(target, t.summary, t.source, Some(true),
        Or(Strip(Or(i.update.note, i.update.summary)), t.note)))
  }

  function ApplyEvidence(s: State, i: EvidenceItem): State {
    if Contradictory(s, i) then s
    else
      var t := match Retraction(s, i) case None => s case Some(u) => AddEvidence(s, u).state;
      AddEvidence(t, i.update).state
  }

  function ApplyHypothesis(s: State, i: HypothesisItem): State {
    match i
    case Declares(d) => Declare(s, d).state
    case Reopens(id, e, note) => Reopen(s, id, e, note).state
  }

  function ApplyConclusion(s: State, i: ConclusionItem): State {
    AddConclusion(s, i.id, i.statement, i.premises).state
  }

  /** The first n items of a list, applied in order. */
  function Applied<I>(s: State, items: seq<I>, n: nat, apply: (State, I) -> State): State
    requires n <= |items|
  {
    if n == 0 then s else apply(Applied(s, items, n - 1, apply), items[n - 1])
  }

  /** apply_updates. */
  function ApplyBatch(s: State, b: Batch): State {
    var goal := if b.goal == "" then s else SetGoal(s, b.goal);
    var evidence := Applied(goal, b.evidence, |b.evidence|, ApplyEvidence);
    var hypotheses := Applied(evidence, b.hypotheses, |b.hypotheses|, ApplyHypothesis);
    Applied(hypotheses, b.conclusions, |b.conclusions|, ApplyConclusion)
  }

  // Durable form

  datatype Payload = Payload(goal: string, revision: int, evidence: seq<Evidence>, hypotheses: seq<Hypothesis>,
                             conclusions: seq<Conclusion>)

  function Values<T>(t: Table<T>): seq<T> {
    if t == [] then [] else [t[0].1] + Values(t[1..])
  }

  function ToDict(s: State): Payload {
    Payload(s.goal, s.revision, Values(s.evidence), Values(s.hypotheses), Values(s.conclusions))
  }

  /** The dictionary built by assigning n values under their own ids. */
  function Keyed<T>(values: seq<T>, id: T -> string, n: nat): Table<T>
    requires n <= |values|
  {
    if n == 0 then [] else Put(Keyed(values, id, n - 1), id(values[n - 1]), values[n - 1])
  }

  function FromDict(p: Payload): Option<State> {
    if p.revision < 0 then None
    else Some(State(p.goal, p.revision,
                    Keyed(p.evidence, (e: Evidence) => e.id, |p.evidence|),
                    Keyed(p.hypotheses, (h: Hypothesis) => h.id, |p.hypotheses|),
                    Keyed(p.conclusions, (c: Conclusion) => c.id, |p.conclusions|)))
  }

  // The ledger object

  class ResearchLedger {
    var goal: string
    var revision: nat
    var evidence: Table<Evidence>
    var hypotheses: Table<Hypothesis>
    var conclusions: Table<Conclusion>

    function Contents(): State
      reads this
    {
      State(goal, revision, evidence, hypotheses, conclusions)
    }

    constructor ()
      ensures Contents() == EMPTY
    {
      goal, revision, evidence, hypotheses, conclusions := "", 0, [], [], [];
    }

    method SetGoalTo(text: string)
      modifies this
      ensures Contents() == SetGoal(old(Contents()), text)
    {
      var g := Short(text, 600);
      if g != "" && g != goal {
        goal := g;
        revision := revision + 1;
      }
    }

    method RegisterEvidence(u: EvidenceUpdate) returns (refused: bool)
      modifies this
      ensures Result(Contents(), refused) == AddEvidence(old(Contents()), u)
    {
      var id := Strip(u.id);
      if id == "" {
        return true;
      }
      var existing := Lookup(evidence, id);
      var record := Corrected(existing, id, u);
      if existing != Some(record) {
        evidence := Put(evidence, id, record);
        revision := revision + 1;
      }
      refused := false;
    }

    method Transit(h: Hypothesis, status: Status, cited: string, note: string, reopen: bool) returns (refused: bool)
      modifies this
      ensures Result(Contents(), refused) == Move(old(Contents()), h, status, cited, note, reopen)
    {
      if h.status.Rejected? && status.Active? && !reopen {
        return true;
      }
      if !Citable(Contents(), Strip(cited), !reopen && status.Active?) {
        return true;
      }
      if reopen && Strip(cited) in Cited(h) {
        return true;
      }
      hypotheses := Put(hypotheses, h.id, Moved(h, status, Strip(cited), note));
      revision := revision + 1;
      refused := false;
    }

    method DeclareHypothesis(d: Declaration) returns (refused: bool)
      modifies this
      ensures Result(Contents(), refused) == Declare(old(Contents()), d)
    {
      var id := Strip(d.id);
      if id == "" || d.status.None? {
        return true;
      }
      var existing := Lookup(hypotheses, id);
      if existing.None? {
        if !Citable(Contents(), d.evidence, true) {
          return true;
        }
        var first := Transition(1, d.status.value, d.evidence, Short(d.note, 120));
        hypotheses := Put(hypotheses, id, Hypothesis(id, Short(d.statement, 220), d.status.value, 1, [first]));
        revision := revision + 1;
        return false;
      }
      var h, statement := existing.value, Short(d.statement, 220);
      if statement != "" && statement != h.statement {
        h := h.(statement := statement);
        hypotheses := Put(hypotheses, h.id, h);
        revision := revision + 1;
      }
      refused := false;
      if d.status.value != h.status {
        refused := Transit(h, d.status.value, d.evidence, d.note, false);
      }
    }

    method ReopenHypothesis(id: string, cited: string, note: string) returns (refused: bool)
      modifies this
      ensures Result(Contents(), refused) == Reopen(old(Contents()), id, cited, note)
    {
      var h := Lookup(hypotheses, Strip(id));
      if h.None? {
        return true;
      }
      refused := Transit(h.value, Active, cited, note, true);
    }

    method RecordConclusion(id: string, statement: string, premises: seq<string>) returns (refused: bool)
      modifies this
      ensures Result(Contents(), refused) == AddConclusion(old(Contents()), id, statement, premises)
    {
      var key := Strip(id);
      if key == "" {
        return true;
      }
      var pinned: map<string, nat> := map[];
      for i := 0 to |premises|
        invariant pinned == Pinned(Contents(), premises, i)
        invariant Contents() == old(Contents())
      {
        var p := Strip(premises[i]);
        if p != "" {
          pinned := pinned[p := PinnedRevision(Contents(), p)];
        }
      }
      var c := Conclusion(key, Short(statement, 220), pinned);
      if Lookup(conclusions, key) != Some(c) {
        conclusions := Put(conclusions, key, c);
        revision := revision + 1;
      }
      refused := false;
    }

    method ApplyEvidenceItem(i: EvidenceItem)
      modifies this
      ensures Contents() == ApplyEvidence(old(Contents()), i)
    {
      if Contradictory(Contents(), i) {
        return;
      }
      var retraction := Retraction(Contents(), i);
      if retraction.Some? {
        var refused := RegisterEvidence(retraction.value);
      }
      var refused := RegisterEvidence(i.update);
    }

    method ApplyEvidenceItems(items: seq<EvidenceItem>)
      modifies this
      ensures Contents() == Applied(old(Contents()), items, |items|, ApplyEvidence)
    {
      for i := 0 to |items|
        invariant Contents() == Applied(old(Contents()), items, i, ApplyEvidence)
      {
        ApplyEvidenceItem(items[i]);
      }
    }

    method ApplyHypothesisItem(i: HypothesisItem)
      modifies this
      ensures Contents() == ApplyHypothesis(old(Contents()), i)
    {
      var refused;
      match i {
        case Declares(d) => refused := DeclareHypothesis(d);
        case Reopens(id, cited, note) => refused := ReopenHypothesis(id, cited, note);
      }
    }

    method ApplyHypothesisItems(items: seq<HypothesisItem>)
      modifies this
      ensures Contents() == Applied(old(Contents()), items, |items|, ApplyHypothesis)
    {
      for i := 0 to |items|
        invariant Contents() == Applied(old(Contents()), items, i, ApplyHypothesis)
      {
        ApplyHypothesisItem(items[i]);
      }
    }

    method ApplyConclusionItems(items: seq<ConclusionItem>)
      modifies this
      ensures Contents() == Applied(old(Contents()), items, |items|, ApplyConclusion)
    {
      for i := 0 to |items|
        invariant Contents() == Applied(old(Contents()), items, i, ApplyConclusion)
      {
        var refused := RecordConclusion(items[i].id, items[i].statement, items[i].premises);
      }
    }

    method ApplyUpdates(b: Batch)
      modifies this
      ensures Contents() == ApplyBatch(old(Contents()), b)
    {
      if b.goal != "" {
        SetGoalTo(b.goal);
      }
      ApplyEvidenceItems(b.evidence);
      ApplyHypothesisItems(b.hypotheses);
      ApplyConclusionItems(b.conclusions);
    }

    /** from_dict into a fresh ledger; false where the payload is rejected. */
    method Restore(p: Payload) returns (ok: bool)
      modifies this
      ensures ok <==> FromDict(p).Some?
      ensures ok ==> FromDict(p) == Some(Contents())
    {
      if p.revision < 0 {
        return false;
      }
      goal, revision := p.goal, p.revision;
      evidence, hypotheses, conclusions := [], [], [];
      for i := 0 to |p.evidence|
        invariant evidence == Keyed(p.evidence, (e: Evidence) => e.id, i)
        invariant goal == p.goal && revision == p.revision && hypotheses == [] && conclusions == []
      {
        evidence := Put(evidence, p.evidence[i].id, p.evidence[i]);
      }
      for i := 0 to |p.hypotheses|
        invariant hypotheses == Keyed(p.hypotheses, (h: Hypothesis) => h.id, i)
        invariant goal == p.goal && revision == p.revision && conclusions == []
        invariant evidence == Keyed(p.evidence, (e: Evidence) => e.id, |p.evidence|)
      {
        hypotheses := Put(hypotheses, p.hypotheses[i].id, p.hypotheses[i]);
      }
      for i := 0 to |p.conclusions|
        invariant conclusions == Keyed(p.conclusions, (c: Conclusion) => c.id, i)
        invariant goal == p.goal && revision == p.revision
        invariant evidence == Keyed(p.evidence, (e: Evidence) => e.id, |p.evidence|)
        invariant hypotheses == Keyed(p.hypotheses, (h: Hypothesis) => h.id, |p.hypotheses|)
      {
        conclusions := Put(conclusions, p.conclusions[i].id, p.conclusions[i]);
      }
      ok := true;
    }
  }
}
