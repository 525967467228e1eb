/** What each update of the ledger answers and changes, and on which evidence a hypothesis
    may move. */
module LedgerAnswers {
  import opened Text
  import opened Ledger
  import opened LedgerRules
  import opened LedgerTheorems

  /** The item is registered and not retracted. */
  predicate Standing(s: State, id: string) {
    Lookup(s.evidence, id).Some? && !Lookup(s.evidence, id).value.retracted
  }

  /** The text names an item that does not stand. */
  predicate CitesFallen(s: State, evidence: string) {
    Strip(evidence) != "" && !Standing(s, Strip(evidence))
  }

  // Evidence

  /** What an item says once registered or corrected: new texts where they are not empty,
      the old ones else; retracted as told, or as before. */
  predicate Corrects(before: Option<Evidence>, u: EvidenceUpdate, e: Evidence) {
    && e.id == Strip(u.id)
    && e.summary == (if Short(u.summary, 220) == "" && before.Some? then before.value.summary
                     else Short(u.summary, 220))
    && e.source == (if Short(u.source, 160) == "" && before.Some? then before.value.source else Short(u.source, 160))
    && e.note == (if Short(u.note, 120) == "" && before.Some? then before.value.note else Short(u.note, 120))
    && e.retracted == (if u.retracted.Some? then u.retracted.value else before.Some? && before.value.retracted)
  }

  /** Registering is refused without an id and then changes nothing; else it corrects this
      item alone, and moves the revision exactly if that changes it. */
  lemma {:induction false} RegisterSays(s: State, u: EvidenceUpdate, k: string)
    ensures var r, id := AddEvidence(s, u), Strip(u.id);
      && (r.refused <==> id == "") && (r.refused ==> r.state == s)
      && (!r.refused ==>
            && Lookup(r.state.evidence, id).Some?
            && Corrects(Lookup(s.evidence, id), u, Lookup(r.state.evidence, id).value)
            && r.state.revision == s.revision + if Lookup(r.state.evidence, id) == Lookup(s.evidence, id) then 0 else 1)
      && (k != id ==> Lookup(r.state.evidence, k) == Lookup(s.evidence, k))
      && r.state.hypotheses == s.hypotheses && r.state.conclusions == s.conclusions && r.state.goal == s.goal
  {
    var id := Strip(u.id);
    LookupPut(s.evidence, id, Corrected(Lookup(s.evidence, id), id, u), k);
    LookupPut(s.evidence, id, Corrected(Lookup(s.evidence, id), id, u), id);
  }

  /** The item has a new note where there is one, and the texts it had in their short form. */
  predicate Noted(before: Evidence, why: string, after: Evidence) {
    var note := Short(if why != "" then why else before.note, 120);
    && after.note == (if note != "" then note else before.note)
    && (before.summary == Short(before.summary, 220) ==> after.summary == before.summary)
    && (before.source == Short(before.source, 160) ==> after.source == before.source)
  }

  /** Why an item is retracted: the note of the one that corrects it, or else its summary. */
  function Why(u: EvidenceUpdate): string {
    Strip(if u.note != "" then u.note else u.summary)
  }

  /** An item of a batch that corrects another one retracts that one, noting why and changing
      nothing else it said, and is registered itself. */
  lemma {:induction false} CorrectionRetracts(s: State, i: EvidenceItem)
    requires !Contradictory(s, i) && Strip(i.retracts) != "" && Lookup(s.evidence, Strip(i.retracts)).Some?
    requires Lookup(s.evidence, Strip(i.retracts)).value.id == Strip(i.retracts)
    ensures var t, target := ApplyEvidence(s, i), Strip(i.retracts);
      && Lookup(t.evidence, target).Some? && Lookup(t.evidence, target).value.retracted
      && Noted(Lookup(s.evidence, target).value, Why(i.update), Lookup(t.evidence, target).value)
      && Lookup(t.evidence, Strip(i.update.id)).Some?
      && Corrects(Lookup(s.evidence, Strip(i.update.id)), i.update, Lookup(t.evidence, Strip(i.update.id)).value)
  {
    var target, id := Strip(i.retracts), Strip(i.update.id);
    StripTight(target);
    var u := Retraction(s, i).value;
    var mid := AddEvidence(s, u).state;
    RegisterSays(s, u, target);
    RegisterSays(s, u, id);
    RegisterSays(mid, i.update, target);
    RegisterSays(mid, i.update, id);
  }

  /** An item that contradicts itself changes nothing: one that would retract itself or be
      retracted while it corrects another, a correction by an item that was retracted or has
      no id, and a retraction of what is not there. */
  lemma {:induction false} ContradictionChangesNothing(s: State, i: EvidenceItem)
    requires
      var id, target := Strip(i.update.id), Strip(i.retracts);
      || (target != "" && (i.update.retracted == Some(true) || target == id || id == ""
                           || (Lookup(s.evidence, id).Some? && Lookup(s.evidence, id).value.retracted)))
      || (i.update.retracted == Some(true) && Lookup(s.evidence, id).None?)
    ensures ApplyEvidence(s, i) == s
  {}

  /** Any other item registers itself. */
  lemma {:induction false} OtherItemsRegister(s: State, i: EvidenceItem)
    requires var id, target := Strip(i.update.id), Strip(i.retracts);
      && id != "" && id != target
      && (target != "" ==>
            i.update.retracted != Some(true)
            && !(Lookup(s.evidence, id).Some? && Lookup(s.evidence, id).value.retracted))
      && (i.update.retracted == Some(true) ==> Lookup(s.evidence, id).Some?)
    ensures var id := Strip(i.update.id);
      && Lookup(ApplyEvidence(s, i).evidence, id).Some?
      && Corrects(Lookup(s.evidence, id), i.update, Lookup(ApplyEvidence(s, i).evidence, id).value)
  {
    var id := Strip(i.update.id);
    var r := Retraction(s, i);
    if r.Some? {
      StripTight(Strip(i.retracts));
      RegisterSays(s, r.value, id);
      RegisterSays(AddEvidence(s, r.value).state, i.update, id);
    } else {
      RegisterSays(s, i.update, id);
    }
  }

  // Hypotheses

  /** When a declaration is refused: without id or status; citing what does not stand; or
      where it would bring a rejected hypothesis back, or move one without evidence to any
      other state than active. */
  lemma {:induction false} DeclareRefusedIff(s: State, d: Declaration)
    ensures Declare(s, d).refused <==>
      || Strip(d.id) == "" || d.status.None?
      || (Lookup(s.hypotheses, Strip(d.id)).None? && CitesFallen(s, d.evidence))
      || (Lookup(s.hypotheses, Strip(d.id)).Some? &&
            var before := Lookup(s.hypotheses, Strip(d.id)).value.status;
            d.status.value != before
            && (CitesFallen(s, d.evidence) || (before == Rejected && d.status.value == Active)
                || (Strip(d.evidence) == "" && d.status.value != Active)))
  {
    StripTight(Strip(d.evidence));
  }

  /** A first declaration adds the hypothesis with its one transition. */
  lemma {:induction false} FirstDeclarationSays(s: State, d: Declaration, k: string)
    requires !Declare(s, d).refused && Lookup(s.hypotheses, Strip(d.id)).None?
    ensures var t, id := Declare(s, d).state, Strip(d.id);
      && Lookup(t.hypotheses, id) == Some(Hypothesis(id, Short(d.statement, 220), d.status.value, 1,
                                                     [Transition(1, d.status.value, d.evidence, Short(d.note, 120))]))
      && (k != id ==> Lookup(t.hypotheses, k) == Lookup(s.hypotheses, k))
      && t.revision == s.revision + 1
      && t.evidence == s.evidence && t.conclusions == s.conclusions && t.goal == s.goal
  {
    var id := Strip(d.id);
    var h := Hypothesis(id, Short(d.statement, 220), d.status.value, 1,
                        [Transition(1, d.status.value, d.evidence, Short(d.note, 120))]);
    LookupPut(s.hypotheses, id, h, k);
    LookupPut(s.hypotheses, id, h, id);
  }

  /** A later one rewords it, where it brings a statement, and adds one transition, where it
      brings another status. */
  lemma {:induction false} LaterDeclarationSays(s: State, d: Declaration, h: Hypothesis, k: string)
    requires !Declare(s, d).refused && Lookup(s.hypotheses, Strip(d.id)) == Some(h) && h.id == Strip(d.id)
    ensures var t, id := Declare(s, d).state, Strip(d.id);
      && Lookup(t.hypotheses, id).Some?
      && (k != id ==> Lookup(t.hypotheses, k) == Lookup(s.hypotheses, k))
      && t.evidence == s.evidence && t.conclusions == s.conclusions && t.goal == s.goal
      && var g := Lookup(t.hypotheses, id).value;
         && g.id == id
         && g.statement == (if Short(d.statement, 220) != "" then Short(d.statement, 220) else h.statement)
         && g.status == d.status.value
         && (d.status.value == h.status ==> g.transitions == h.transitions && g.revision == h.revision)
         && (d.status.value != h.status ==>
               && g.revision == h.revision + 1
               && g.transitions == h.transitions
                  + [Transition(h.revision + 1, d.status.value, Strip(d.evidence), Short(d.note, 120))])
  {
    var id, statement := Strip(d.id), Short(d.statement, 220);
    var g := if statement != "" then h.(statement := statement) else h;
    var t := Reworded(s, h, statement);
    LookupPut(s.hypotheses, id, g, k);
    LookupPut(s.hypotheses, id, g, id);
    if d.status.value != h.status {
      var m := Moved(g, d.status.value, Strip(d.evidence), d.note);
      LookupPut(t.hypotheses, id, m, k);
      LookupPut(t.hypotheses, id, m, id);
    }
  }

  /** A reopen is refused exactly without the hypothesis, or without standing evidence that
      no transition cites; it makes the hypothesis active, on that evidence. */
  lemma {:induction false} ReopenSays(s: State, id: string, evidence: string, note: string, k: string)
    requires Lookup(s.hypotheses, Strip(id)).Some? ==> Lookup(s.hypotheses, Strip(id)).value.id == Strip(id)
    ensures var r, e := Reopen(s, id, evidence, note), Strip(evidence);
      && (r.refused <==>
            || Lookup(s.hypotheses, Strip(id)).None? || e == "" || !Standing(s, e)
            || exists i :: 0 <= i < |Lookup(s.hypotheses, Strip(id)).value.transitions|
                 && Lookup(s.hypotheses, Strip(id)).value.transitions[i].evidence == e)
      && (r.refused ==> r.state == s)
      && (!r.refused ==>
            && (k != Strip(id) ==> Lookup(r.state.hypotheses, k) == Lookup(s.hypotheses, k))
            && var h := Lookup(s.hypotheses, Strip(id)).value;
               Lookup(r.state.hypotheses, Strip(id))
               == Some(h.(status := Active, revision := h.revision + 1,
                          transitions := h.transitions + [Transition(h.revision + 1, Active, e, Short(note, 120))])))
  {
    StripTight(Strip(evidence));
    var h := Lookup(s.hypotheses, Strip(id));
    if h.Some? {
      CitedIff(h.value.transitions, |h.value.transitions|, Strip(evidence));
      var m := Moved(h.value, Active, Strip(evidence), note);
      LookupPut(s.hypotheses, Strip(id), m, k);
      LookupPut(s.hypotheses, Strip(id), m, Strip(id));
    }
  }

  // Transitions on standing evidence

  function HistoryOf(s: State, k: string): seq<Transition> {
    match Lookup(s.hypotheses, k)
    case None => []
    case Some(h) => h.transitions
  }

  /** Every transition that hypothesis k gains from s to t cites nothing, or an item that
      stands in s. */
  ghost predicate GainsOnStanding(s: State, t: State, k: string) {
    && |HistoryOf(s, k)| <= |HistoryOf(t, k)|
    && (forall i {:trigger HistoryOf(t, k)[i]} :: |HistoryOf(s, k)| <= i < |HistoryOf(t, k)| ==>
          Strip(HistoryOf(t, k)[i].evidence) == "" || Standing(s, Strip(HistoryOf(t, k)[i].evidence)))
  }

  lemma {:induction false} DeclareGains(s: State, d: Declaration, k: string)
    requires Sound(s)
    ensures GainsOnStanding(s, Declare(s, d).state, k)
  {
    var id := Strip(d.id);
    DeclareRefusedIff(s, d);
    if Declare(s, d).refused {
      RefusalKeepsHistories(s, d, k);
    } else if Lookup(s.hypotheses, id).None? {
      FirstDeclarationSays(s, d, k);
    } else {
      assert HypothesisSound(s.evidence, id, Lookup(s.hypotheses, id).value);
      LaterDeclarationSays(s, d, Lookup(s.hypotheses, id).value, k);
      StripTight(Strip(d.evidence));
    }
  }

  lemma {:induction false} ReopenGains(s: State, id: string, evidence: string, note: string, k: string)
    requires Sound(s)
    ensures GainsOnStanding(s, Reopen(s, id, evidence, note).state, k)
  {
    var h := Lookup(s.hypotheses, Strip(id));
    if h.Some? {
      assert HypothesisSound(s.evidence, Strip(id), h.value);
    }
    ReopenSays(s, id, evidence, note, k);
    StripTight(Strip(evidence));
  }

  /** A single update moves a hypothesis on evidence that stands, or on none. */
  lemma {:induction false} UpdateGains(s: State, op: Op, k: string)
    requires Sound(s)
    ensures GainsOnStanding(s, Apply(s, op), k)
  {
    match op {
      case Goal(_) =>
      case Register(u) => RegisterSays(s, u, k);
      case Declaring(d) => DeclareGains(s, d, k);
      case Reopening(id, e, note) => ReopenGains(s, id, e, note, k);
      case Concluding(_, _, _) =>
    }
  }

  lemma {:induction false} HistoryStays(s: State, op: Op, k: string)
    requires Sound(s)
    ensures HistoryOf(s, k) <= HistoryOf(Apply(s, op), k)
  {
    ApplyKeeps(s, op);
  }

  lemma {:induction false} HistoryStaysThrough(s: State, ops: seq<Op>, k: string)
    requires Sound(s)
    ensures HistoryOf(s, k) <= HistoryOf(Run(s, ops), k)
  {
    RunKeeps(s, ops);
  }

  /** Whatever updates a ledger went through: when a transition was made that cites an item,
      the item was registered and not retracted. */
  lemma {:induction false} TransitionsCiteStanding(s: State, ops: seq<Op>, k: string, i: nat) returns (n: nat)
    requires Sound(s) && |HistoryOf(s, k)| <= i < |HistoryOf(Run(s, ops), k)|
    requires Strip(HistoryOf(Run(s, ops), k)[i].evidence) != ""
    ensures n < |ops| && Standing(Run(s, ops[..n]), Strip(HistoryOf(Run(s, ops), k)[i].evidence))
    decreases |ops|
  {
    var t := Apply(s, ops[0]);
    ApplyKeeps(s, ops[0]);
    HistoryStaysThrough(t, ops[1..], k);
    if i < |HistoryOf(t, k)| {
      UpdateGains(s, ops[0], k);
      n := 0;
      assert ops[..0] == [];
    } else {
      var m := TransitionsCiteStanding(t, ops[1..], k, i);
      n := m + 1;
      assert ops[..n][0] == ops[0] && ops[..n][1..] == ops[1..][..m];
    }
  }

  /** In a batch, too: some of its updates came before, and left the item standing. */
  lemma {:induction false} BatchCitesStanding(s: State, b: Batch, k: string, i: nat) returns (before: seq<Op>)
    requires Sound(s) && |HistoryOf(s, k)| <= i < |HistoryOf(ApplyBatch(s, b), k)|
    requires Strip(HistoryOf(ApplyBatch(s, b), k)[i].evidence) != ""
    ensures AllAsked(b, before) && Standing(Run(s, before), Strip(HistoryOf(ApplyBatch(s, b), k)[i].evidence))
  {
    var ops := BatchOps(s, b);
    var n := TransitionsCiteStanding(s, ops, k, i);
    before := ops[..n];
  }

  /** A declaration that would change a status, or a reopen, is refused on a retracted item
      and leaves every history as it was. */
  lemma {:induction false} RetractedIsRefused(s: State, id: string, evidence: string, status: Status, statement: string,
                                              note: string, k: string)
    requires Sound(s) && Retracted(s, Strip(evidence)) && Strip(evidence) != "" && Lookup(s.hypotheses, Strip(id)).Some?
    ensures Reopen(s, id, evidence, note) == Result(s, true)
    ensures var d := Declaration(id, statement, Some(status), evidence, note);
      status != Lookup(s.hypotheses, Strip(id)).value.status ==>
        Declare(s, d).refused && HistoryOf(Declare(s, d).state, k) == HistoryOf(s, k)
  {
    var d := Declaration(id, statement, Some(status), evidence, note);
    assert HypothesisSound(s.evidence, Strip(id), Lookup(s.hypotheses, Strip(id)).value);
    ReopenSays(s, id, evidence, note, k);
    DeclareRefusedIff(s, d);
    if Declare(s, d).refused {
      RefusalKeepsHistories(s, d, k);
    }
  }

  // Goal and conclusions

  /** The goal changes exactly to a new one that is not empty. */
  lemma {:induction false} GoalSays(s: State, goal: string)
    ensures var t, g := SetGoal(s, goal), Short(goal, 600);
      && t.goal == (if g == "" then s.goal else g)
      && t.revision == (if t.goal == s.goal then s.revision else s.revision + 1)
      && t.evidence == s.evidence && t.hypotheses == s.hypotheses && t.conclusions == s.conclusions
  {}

  /** A conclusion is refused without an id; else it is recorded as told, and only it. */
  lemma {:induction false} ConclusionSays(s: State, id: string, statement: string, premises: seq<string>, k: string)
    ensures var r, key := AddConclusion(s, id, statement, premises), Strip(id);
      && (r.refused <==> key == "") && (r.refused ==> r.state == s)
      && (!r.refused ==>
            && Lookup(r.state.conclusions, key).Some?
            && Lookup(r.state.conclusions, key).value.id == key
            && Lookup(r.state.conclusions, key).value.statement == Short(statement, 220))
      && (k != key ==> Lookup(r.state.conclusions, k) == Lookup(s.conclusions, k))
      && r.state.evidence == s.evidence && r.state.hypotheses == s.hypotheses && r.state.goal == s.goal
  {
    var key := Strip(id);
    var c := Conclusion(key, Short(statement, 220), Pinned(s, premises, |premises|));
    LookupPut(s.conclusions, key, c, k);
    LookupPut(s.conclusions, key, c, key);
  }

  /** A shortened text is the collapsed one, or a beginning of it and an ellipsis. */
  lemma {:induction false} ShortSays(text: string, n: nat)
    ensures var t, r := Collapse(text), Short(text, n);
      && |r| <= n + 1 && (|t| <= n ==> r == t)
      && (|t| > n ==> r != "" && r[|r| - 1] == '…' && r[..|r| - 1] == RStrip(t[..n]))
  {
    var t := Collapse(text);
    if |t| > n {
      RStripShorter(t[..n]);
    }
  }

  lemma {:induction false} RStripShorter(s: string)
    ensures |RStrip(s)| <= |s|
  {
    if s != "" && IsSpace(s[|s| - 1]) {
      RStripShorter(s[..|s| - 1]);
    }
  }

  // Batches, in order

  datatype Item =
    | ForGoal(goal: string)
    | ForEvidence(evidence: EvidenceItem)
    | ForHypothesis(hypothesis: HypothesisItem)
    | ForConclusion(conclusion: ConclusionItem)

  /** What one item does by itself. */
  function ItemDone(s: State, i: Item): State {
    match i
    case ForGoal(g) => if g == "" then s else SetGoal(s, g)
    case ForEvidence(e) => ApplyEvidence(s, e)
    case ForHypothesis(Declares(d)) => Declare(s, d).state
    case ForHypothesis(Reopens(id, e, note)) => Reopen(s, id, e, note).state
    case ForConclusion(c) => AddConclusion(s, c.id, c.statement, c.premises).state
  }

  function AllDone(s: State, items: seq<Item>, done: (State, Item) -> State): State
    decreases |items|
  {
    if items == [] then s else AllDone(done(s, items[0]), items[1..], done)
  }

  function Each<I>(items: seq<I>, item: I -> Item): (r: seq<Item>)
    ensures |r| == |items| && forall k :: 0 <= k < |r| ==> r[k] == item(items[k])
  {
    seq(|items|, k requires 0 <= k < |items| => item(items[k]))
  }

  /** The items of a batch: its goal, its evidence, its hypotheses, its conclusions. */
  function ItemsOf(b: Batch): seq<Item> {
    [ForGoal(b.goal)] + (Each(b.evidence, e => ForEvidence(e))
      + (Each(b.hypotheses, h => ForHypothesis(h)) + Each(b.conclusions, c => ForConclusion(c))))
  }

  lemma {:induction false} AllDoneConcat(s: State, a: seq<Item>, b: seq<Item>, done: (State, Item) -> State)
    ensures AllDone(s, a + b, done) == AllDone(AllDone(s, a, done), b, done)
    decreases |a|
  {
    if a == [] {
      assert a + b == b;
    } else {
      assert (a + b)[0] == a[0] && (a + b)[1..] == a[1..] + b;
      AllDoneConcat(done(s, a[0]), a[1..], b, done);
    }
  }

  lemma {:induction false} OneDone(s: State, i: Item, done: (State, Item) -> State)
    ensures AllDone(s, [i], done) == done(s, i)
  {
    assert [i][1..] == [];
  }

  lemma {:induction false} AppliedIsDone<I>(s: State, items: seq<I>, n: nat, apply: (State, I) -> State,
                                            item: I -> Item, done: (State, Item) -> State)
    requires n <= |items| && forall t, i :: apply(t, i) == done(t, item(i))
    ensures Applied(s, items, n, apply) == AllDone(s, Each(items, item)[..n], done)
  {
    if n > 0 {
      AppliedIsDone(s, items, n - 1, apply, item, done);
      var all := Each(items, item);
      assert all[..n] == all[..n - 1] + [all[n - 1]];
      AllDoneConcat(s, all[..n - 1], [all[n - 1]], done);
      OneDone(AllDone(s, all[..n - 1], done), all[n - 1], done);
    }
  }

  lemma {:induction false} ListIsDone<I>(s: State, items: seq<I>, apply: (State, I) -> State, item: I -> Item,
                                         done: (State, Item) -> State)
    requires forall t, i :: apply(t, i) == done(t, item(i))
    ensures Applied(s, items, |items|, apply) == AllDone(s, Each(items, item), done)
  {
    AppliedIsDone(s, items, |items|, apply, item, done);
    assert Each(items, item)[..|items|] == Each(items, item);
  }

  /** A batch does all its items, one after the other. */
  lemma {:induction false} BatchDoesAll(s: State, b: Batch)
    ensures ApplyBatch(s, b) == AllDone(s, ItemsOf(b), ItemDone)
  {
    var e, h, c := Each(b.evidence, e => ForEvidence(e)), Each(b.hypotheses, h => ForHypothesis(h)),
                   Each(b.conclusions, c => ForConclusion(c));
    var g := AllDone(s, [ForGoal(b.goal)], ItemDone);
    OneDone(s, ForGoal(b.goal), ItemDone);
    AllDoneConcat(s, [ForGoal(b.goal)], e + (h + c), ItemDone);
    AllDoneConcat(g, e, h + c, ItemDone);
    AllDoneConcat(AllDone(g, e, ItemDone), h, c, ItemDone);
    ListIsDone(g, b.evidence, ApplyEvidence, e => ForEvidence(e), ItemDone);
    ListIsDone(AllDone(g, e, ItemDone), b.hypotheses, ApplyHypothesis, h => ForHypothesis(h), ItemDone);
    ListIsDone(AllDone(AllDone(g, e, ItemDone), h, ItemDone), b.conclusions, ApplyConclusion, c => ForConclusion(c),
               ItemDone);
  }

  // Loading

  /** Only a negative revision is rejected; of two stored values of one id the later counts. */
  lemma {:induction false} LoadRejectsIff(p: Payload)
    ensures FromDict(p).None? <==> p.revision < 0
    ensures p.revision >= 0 ==> FromDict(p).value.goal == p.goal && FromDict(p).value.revision == p.revision
  {}

  lemma {:induction false} KeyedLast<T>(values: seq<T>, id: T -> string, n: nat, i: nat)
    requires i < n <= |values| && forall j :: i < j < n ==> id(values[j]) != id(values[i])
    ensures Lookup(Keyed(values, id, n), id(values[i])) == Some(values[i])
  {
    LookupPut(Keyed(values, id, n - 1), id(values[n - 1]), values[n - 1], id(values[i]));
    if i < n - 1 {
      KeyedLast(values, id, n - 1, i);
    }
  }
}
