/** The promises of the ledger, over every sequence of updates. */
module LedgerTheorems {
  import opened Text
  import opened Ledger
  import opened LedgerRules

  // Batches are sequences of operations

  /** The update registers what the item says, or retracts what the item corrects. */
  predicate FromEvidence(i: EvidenceItem, op: Op) {
    op.Register? && (op.update == i.update || (op.update.id == Strip(i.retracts) && op.update.retracted == Some(true)))
  }

  function OpOf(i: HypothesisItem): Op {
    match i
    case Declares(d) => Declaring(d)
    case Reopens(id, e, note) => Reopening(id, e, note)
  }

  function Concludes(i: ConclusionItem): Op { Concluding(i.id, i.statement, i.premises) }

  /** An item of the batch asks for the operation. */
  ghost predicate AsksFor(b: Batch, op: Op) {
    || (b.goal != "" && op == Goal(b.goal))
    || (exists i :: 0 <= i < |b.evidence| && FromEvidence(b.evidence[i], op))
    || (exists i :: 0 <= i < |b.hypotheses| && op == OpOf(b.hypotheses[i]))
    || (exists i :: 0 <= i < |b.conclusions| && op == Concludes(b.conclusions[i]))
  }

  ghost predicate AllAsked(b: Batch, ops: seq<Op>) {
    forall k {:trigger ops[k]} :: 0 <= k < |ops| ==> AsksFor(b, ops[k])
  }

  lemma {:induction false} OneMore(s: State, ops: seq<Op>, op: Op) returns (more: seq<Op>)
    ensures Run(s, more) == Apply(Run(s, ops), op)
    ensures more == ops + [op]
  {
    more := ops + [op];
    RunConcat(s, ops, [op]);
    RunOne(Run(s, ops), op);
  }

  /** Operations the batch asks for lead from one state to the other. */
  ghost predicate Follows(b: Batch, s: State, t: State) {
    exists ops :: AllAsked(b, ops) && Run(s, ops) == t
  }

  lemma {:induction false} FollowsItself(b: Batch, s: State)
    ensures Follows(b, s, s)
  {
    assert AllAsked(b, []) && Run(s, []) == s;
  }

  lemma {:induction false} FollowsOp(b: Batch, s: State, op: Op, t: State)
    requires AsksFor(b, op) && t == Apply(s, op)
    ensures Follows(b, s, t)
  {
    RunOne(s, op);
    assert AllAsked(b, [op]);
  }

  lemma {:induction false} FollowsOn(b: Batch, s: State, t: State, u: State)
    requires Follows(b, s, t) && Follows(b, t, u)
    ensures Follows(b, s, u)
  {
    var x :| AllAsked(b, x) && Run(s, x) == t;
    var y :| AllAsked(b, y) && Run(t, y) == u;
    RunConcat(s, x, y);
    assert AllAsked(b, x + y);
  }

  lemma {:induction false} EvidenceFollows(b: Batch, t: State, u: State, n: nat)
    requires n < |b.evidence| && u == ApplyEvidence(t, b.evidence[n])
    ensures Follows(b, t, u)
  {
    var i := b.evidence[n];
    if Contradictory(t, i) {
      FollowsItself(b, t);
    } else {
      var r := Retraction(t, i);
      var mid := if r.None? then t else AddEvidence(t, r.value).state;
      if r.None? {
        FollowsItself(b, t);
      } else {
        assert FromEvidence(b.evidence[n], Register(r.value));
        FollowsOp(b, t, Register(r.value), mid);
      }
      assert FromEvidence(b.evidence[n], Register(i.update));
      FollowsOp(b, mid, Register(i.update), u);
      FollowsOn(b, t, mid, u);
    }
  }

  lemma {:induction false} HypothesisFollows(b: Batch, t: State, u: State, n: nat)
    requires n < |b.hypotheses| && u == ApplyHypothesis(t, b.hypotheses[n])
    ensures Follows(b, t, u)
  {
    FollowsOp(b, t, OpOf(b.hypotheses[n]), u);
  }

  lemma {:induction false} ConclusionFollows(b: Batch, t: State, u: State, n: nat)
    requires n < |b.conclusions| && u == ApplyConclusion(t, b.conclusions[n])
    ensures Follows(b, t, u)
  {
    FollowsOp(b, t, Concludes(b.conclusions[n]), u);
  }

  /** Where every item leads on, so does the list. */
  lemma {:induction false} ItemsFollow<I>(b: Batch, s: State, items: seq<I>, n: nat, apply: (State, I) -> State)
    returns (t: State)
    requires n <= |items|
    requires forall u, i {:trigger apply(u, items[i])} :: 0 <= i < |items| ==> Follows(b, u, apply(u, items[i]))
    ensures t == Applied(s, items, n, apply) && Follows(b, s, t)
  {
    if n == 0 {
      t := s;
      FollowsItself(b, s);
    } else {
      var u := ItemsFollow(b, s, items, n - 1, apply);
      t := apply(u, items[n - 1]);
      FollowsOn(b, s, u, t);
    }
  }

  lemma {:induction false} EvidenceSteps(s: State, b: Batch) returns (t: State)
    ensures t == Applied(s, b.evidence, |b.evidence|, ApplyEvidence) && Follows(b, s, t)
  {
    forall u, i | 0 <= i < |b.evidence|
      ensures Follows(b, u, ApplyEvidence(u, b.evidence[i]))
    {
      EvidenceFollows(b, u, ApplyEvidence(u, b.evidence[i]), i);
    }
    t := ItemsFollow(b, s, b.evidence, |b.evidence|, ApplyEvidence);
  }

  lemma {:induction false} HypothesisSteps(s: State, b: Batch) returns (t: State)
    ensures t == Applied(s, b.hypotheses, |b.hypotheses|, ApplyHypothesis) && Follows(b, s, t)
  {
    forall u, i | 0 <= i < |b.hypotheses|
      ensures Follows(b, u, ApplyHypothesis(u, b.hypotheses[i]))
    {
      HypothesisFollows(b, u, ApplyHypothesis(u, b.hypotheses[i]), i);
    }
    t := ItemsFollow(b, s, b.hypotheses, |b.hypotheses|, ApplyHypothesis);
  }

  lemma {:induction false} ConclusionSteps(s: State, b: Batch) returns (t: State)
    ensures t == Applied(s, b.conclusions, |b.conclusions|, ApplyConclusion) && Follows(b, s, t)
  {
    forall u, i | 0 <= i < |b.conclusions|
      ensures Follows(b, u, ApplyConclusion(u, b.conclusions[i]))
    {
      ConclusionFollows(b, u, ApplyConclusion(u, b.conclusions[i]), i);
    }
    t := ItemsFollow(b, s, b.conclusions, |b.conclusions|, ApplyConclusion);
  }

  lemma {:induction false} GoalStep(s: State, b: Batch) returns (u: State)
    ensures u == (if b.goal == "" then s else SetGoal(s, b.goal)) && Follows(b, s, u)
  {
    if b.goal == "" {
      u := s;
      FollowsItself(b, s);
    } else {
      u := SetGoal(s, b.goal);
      FollowsOp(b, s, Goal(b.goal), u);
    }
  }

  /** A batch does what some sequence of operations does, each of which one of its items
      asks for. */
  lemma {:induction false} BatchOps(s: State, b: Batch) returns (ops: seq<Op>)
    ensures Run(s, ops) == ApplyBatch(s, b) && AllAsked(b, ops)
  {
    var g := GoalStep(s, b);
    var e := EvidenceSteps(g, b);
    var h := HypothesisSteps(e, b);
    var c := ConclusionSteps(h, b);
    FollowsOn(b, s, g, e);
    FollowsOn(b, s, e, h);
    FollowsOn(b, s, h, c);
    ops :| AllAsked(b, ops) && Run(s, ops) == c;
  }

  /** Any number of batches. */
  function Batches(s: State, bs: seq<Batch>): State
    decreases |bs|
  {
    if bs == [] then s else Batches(ApplyBatch(s, bs[0]), bs[1..])
  }

  // Histories

  lemma {:induction false} SoundHistory(evidence: Table<Evidence>, k: string, h: Hypothesis)
    requires HypothesisSound(evidence, k, h)
    ensures h.id == k && h.revision == |h.transitions| >= 1 && h.status == h.transitions[h.revision - 1].status
    ensures forall i :: 0 <= i < h.revision ==> h.transitions[i].revision == i + 1
    ensures forall i :: 0 <= i < h.revision && Strip(h.transitions[i].evidence) != "" ==>
      Lookup(evidence, Strip(h.transitions[i].evidence)).Some?
  {
    forall i: nat | i < h.revision
      ensures h.transitions[i].revision == i + 1
    {
      assert TransitionSound(h.transitions, i);
    }
  }

  lemma {:induction false} ReachedHypothesis(ops: seq<Op>, k: string)
    requires Lookup(Run(EMPTY, ops).hypotheses, k).Some?
    ensures HypothesisSound(Run(EMPTY, ops).evidence, k, Lookup(Run(EMPTY, ops).hypotheses, k).value)
  {
    EmptyIsSound();
    RunKeeps(EMPTY, ops);
  }

  /** In every reachable ledger a hypothesis counts its transitions, has the status of the
      last one, and cites only registered evidence. */
  lemma {:induction false} HistoriesHold(ops: seq<Op>, k: string, h: Hypothesis)
    requires Lookup(Run(EMPTY, ops).hypotheses, k) == Some(h)
    ensures h.id == k && h.revision == |h.transitions| >= 1 && h.status == h.transitions[h.revision - 1].status
    ensures forall i :: 0 <= i < h.revision ==> h.transitions[i].revision == i + 1
    ensures forall i :: 0 <= i < h.revision && Strip(h.transitions[i].evidence) != "" ==>
      Lookup(Run(EMPTY, ops).evidence, Strip(h.transitions[i].evidence)).Some?
  {
    ReachedHypothesis(ops, k);
    SoundHistory(Run(EMPTY, ops).evidence, k, h);
  }

  /** Transition i leads from rejected back to active. */
  predicate Revives(h: Hypothesis, i: nat) {
    0 < i < |h.transitions| && h.transitions[i - 1].status.Rejected? && h.transitions[i].status.Active?
  }

  /** No earlier transition cites the same evidence item. */
  ghost predicate CitesAnew(h: Hypothesis, i: nat)
    requires i < |h.transitions|
  {
    forall j :: 0 <= j < i ==> Strip(h.transitions[j].evidence) != h.transitions[i].evidence
  }

  /** A step from rejected back to active cites evidence that no earlier transition cites,
      except when the first transition cites it with spaces around the id. */
  lemma {:induction false} RevivalCitesAnewIff(ops: seq<Op>, k: string, h: Hypothesis, i: nat)
    requires Lookup(Run(EMPTY, ops).hypotheses, k) == Some(h) && Revives(h, i)
    ensures h.transitions[i].evidence != ""
    ensures CitesAnew(h, i) <==>
      Tight(h.transitions[0].evidence) || Strip(h.transitions[0].evidence) != h.transitions[i].evidence
  {
    ReachedHypothesis(ops, k);
    var ts := h.transitions;
    assert TransitionSound(ts, i);
    if Tight(ts[0].evidence) || Strip(ts[0].evidence) != ts[i].evidence {
      forall j | 0 <= j < i
        ensures Strip(ts[j].evidence) != ts[i].evidence
      {
        assert TransitionSound(ts, j);
        if Tight(ts[j].evidence) {
          StripTight(ts[j].evidence);
        }
      }
    }
  }

  /** Evidence "e", and a hypothesis first rejected on it, cited as " e". */
  function PaddedEvidence(): Evidence { Corrected(None, "e", EvidenceUpdate("e", "", "", None, "")) }

  function PaddedHypothesis(): Hypothesis {
    Hypothesis("h", Short("", 220), Rejected, 1, [Transition(1, Rejected, " e", Short("", 120))])
  }

  lemma {:induction false} PaddedRegister()
    ensures Apply(EMPTY, Register(EvidenceUpdate("e", "", "", None, "")))
        == EMPTY.(evidence := [("e", PaddedEvidence())], revision := 1)
  {
    StripTight("e");
  }

  lemma {:induction false} PaddedDeclare(s: State)
    requires s == EMPTY.(evidence := [("e", PaddedEvidence())], revision := 1)
    ensures Apply(s, Declaring(Declaration("h", "", Some(Rejected), " e", "")))
            == s.(hypotheses := [("h", PaddedHypothesis())], revision := 2)
  {
    StripTight("e");
    StripTight("h");
    StripLeading(' ', "e");
    assert [' '] + "e" == " e";
    assert Lookup(s.evidence, "e") == Some(PaddedEvidence()) && !PaddedEvidence().retracted;
  }

  lemma {:induction false} PaddedReopen(s: State, e: Evidence, h: Hypothesis)
    requires s.evidence == [("e", e)] && !e.retracted && s.hypotheses == [("h", h)] && h.id == "h"
    requires |h.transitions| == 1 && h.transitions[0].evidence == " e"
    ensures Apply(s, Reopening("h", "e", "")).hypotheses == [("h", Moved(h, Active, "e", ""))]
  {
    StripTight("e");
    StripTight("h");
    CitedIff(h.transitions, 1, "e");
    assert Lookup(s.hypotheses, "h") == Some(h) && Lookup(s.evidence, "e") == Some(e);
    assert MayMove(s, h, Active, "e", true);
  }

  /** The exception is real: a hypothesis first rejected on " e" is reopened on "e". */
  lemma {:induction false} PaddedIdIsCitedTwice() returns (ops: seq<Op>, h: Hypothesis)
    ensures Lookup(Run(EMPTY, ops).hypotheses, "h") == Some(h) && Revives(h, 1) && !CitesAnew(h, 1)
  {
    ops := OneMore(EMPTY, [], Register(EvidenceUpdate("e", "", "", None, "")));
    PaddedRegister();
    var s := Run(EMPTY, ops);
    PaddedDeclare(s);
    ops := OneMore(EMPTY, ops, Declaring(Declaration("h", "", Some(Rejected), " e", "")));
    var t := Run(EMPTY, ops);
    PaddedReopen(t, PaddedEvidence(), PaddedHypothesis());
    ops := OneMore(EMPTY, ops, Reopening("h", "e", ""));
    h := Moved(PaddedHypothesis(), Active, "e", "");
    StripTight("e");
    StripLeading(' ', "e");
    assert [' '] + "e" == " e" && Strip(h.transitions[0].evidence) == h.transitions[1].evidence;
  }

  /** A refused declaration may have reworded the hypothesis; it changes no history. */
  lemma {:induction false} RefusalKeepsHistories(s: State, d: Declaration, k: string)
    requires Sound(s) && Declare(s, d).refused
    ensures var t := Declare(s, d).state;
      && t.evidence == s.evidence && t.conclusions == s.conclusions && t.goal == s.goal
      && (Lookup(t.hypotheses, k).Some? <==> Lookup(s.hypotheses, k).Some?)
      && (Lookup(t.hypotheses, k).Some? ==>
            Lookup(t.hypotheses, k).value
            == Lookup(s.hypotheses, k).value.(statement := Lookup(t.hypotheses, k).value.statement))
  {
    var id := Strip(d.id);
    var existing := Lookup(s.hypotheses, id);
    if id != "" && d.status.Some? && existing.Some? {
      var h := existing.value;
      assert HypothesisSound(s.evidence, id, h);
      LookupPut(s.hypotheses, h.id, h.(statement := Short(d.statement, 220)), k);
    }
  }

  // Conclusions

  ghost predicate Rerecords(op: Op, key: string) {
    op.Concluding? && Strip(op.id) == key
  }

  ghost predicate NotRerecorded(ops: seq<Op>, key: string) {
    forall i {:trigger ops[i]} :: 0 <= i < |ops| ==> !Rerecords(ops[i], key)
  }

  lemma {:induction false} ConclusionStays(s: State, op: Op, key: string)
    requires !Rerecords(op, key)
    ensures Lookup(Apply(s, op).conclusions, key) == Lookup(s.conclusions, key)
  {
    if op.Concluding? {
      var c := Conclusion(Strip(op.id), Short(op.statement, 220), Pinned(s, op.premises, |op.premises|));
      LookupPut(s.conclusions, Strip(op.id), c, key);
    }
  }

  lemma {:induction false} ConclusionStaysThrough(s: State, ops: seq<Op>, key: string)
    requires NotRerecorded(ops, key)
    ensures Lookup(Run(s, ops).conclusions, key) == Lookup(s.conclusions, key)
    decreases |ops|
  {
    if ops != [] {
      ConclusionStays(s, ops[0], key);
      ConclusionStaysThrough(Apply(s, ops[0]), ops[1..], key);
    }
  }

  /** A hypothesis with an unchanged revision has an unchanged status. */
  lemma {:induction false} RevisionDecidesStatus(s: State, t: State, p: string)
    requires Sound(s) && Sound(t) && Extends(s, t) && Lookup(s.hypotheses, p).Some?
    ensures Lookup(t.hypotheses, p).Some? && RevisionIn(s.hypotheses, p) <= RevisionIn(t.hypotheses, p)
    ensures RevisionIn(s.hypotheses, p) == RevisionIn(t.hypotheses, p) ==>
      Lookup(t.hypotheses, p).value.status == Lookup(s.hypotheses, p).value.status
  {
    assert Lookup(t.hypotheses, p).Some?;
    var g, h := Lookup(s.hypotheses, p).value, Lookup(t.hypotheses, p).value;
    assert HypothesisSound(s.evidence, p, g) && HypothesisSound(t.evidence, p, h);
  }

  /** The premise existed and was not rejected then, and has not moved since. */
  predicate Stands(s: State, t: State, p: string) {
    && Lookup(s.hypotheses, p).Some? && !Lookup(s.hypotheses, p).value.status.Rejected?
    && RevisionIn(t.hypotheses, p) == RevisionIn(s.hypotheses, p)
  }

  lemma {:induction false} StandsIff(s: State, t: State, p: string)
    requires Sound(s) && Sound(t) && Extends(s, t)
    ensures !Stale(t, p, PinnedRevision(s, p)) <==> Stands(s, t, p)
  {
    if Lookup(s.hypotheses, p).Some? {
      RevisionDecidesStatus(s, t, p);
    } else if Lookup(t.hypotheses, p).Some? {
      assert HypothesisSound(t.evidence, p, Lookup(t.hypotheses, p).value);
    }
  }

  /** A recorded conclusion is valid exactly if, when it was recorded, every premise existed
      and was not rejected, and no premise has made a transition since. */
  lemma {:induction false} ValidIffPremisesStand(s: State, id: string, statement: string, premises: seq<string>,
                                                 ops: seq<Op>)
    requires Sound(s) && Strip(id) != "" && NotRerecorded(ops, Strip(id))
    ensures var t := Run(AddConclusion(s, id, statement, premises).state, ops);
      var c := Lookup(t.conclusions, Strip(id));
      && c.Some?
      && (forall p :: p in c.value.premises <==>
            p != "" && exists i :: 0 <= i < |premises| && Strip(premises[i]) == p)
      && (Valid(t, c.value) <==> forall p :: p in c.value.premises ==> Stands(s, t, p))
  {
    var key, r := Strip(id), AddConclusion(s, id, statement, premises).state;
    var t, c := Run(r, ops), Conclusion(key, Short(statement, 220), Pinned(s, premises, |premises|));
    ConcludeKeeps(s, id, statement, premises);
    RunKeeps(r, ops);
    ExtendsTrans(s, r, t);
    LookupPut(s.conclusions, key, c, key);
    ConclusionStaysThrough(r, ops, key);
    forall p
      ensures p in c.premises <==> p != "" && exists i :: 0 <= i < |premises| && Strip(premises[i]) == p
      ensures p in c.premises ==> (!Stale(t, p, c.premises[p]) <==> Stands(s, t, p))
    {
      PinnedAt(s, premises, |premises|, p);
      StandsIff(s, t, p);
    }
  }

  /** Once invalid, a conclusion stays invalid until it is recorded again. */
  lemma {:induction false} InvalidStays(s: State, key: string, ops: seq<Op>)
    requires Sound(s) && NotRerecorded(ops, key) && Lookup(s.conclusions, key).Some?
    requires !Valid(s, Lookup(s.conclusions, key).value)
    ensures Lookup(Run(s, ops).conclusions, key) == Lookup(s.conclusions, key)
    ensures !Valid(Run(s, ops), Lookup(s.conclusions, key).value)
  {
    var t, c := Run(s, ops), Lookup(s.conclusions, key).value;
    RunKeeps(s, ops);
    ConclusionStaysThrough(s, ops, key);
    assert PinsReached(s.hypotheses, c);
    var p :| p in c.premises && Stale(s, p, c.premises[p]);
    assert c.premises[p] <= RevisionIn(s.hypotheses, p);
    if Lookup(s.hypotheses, p).Some? {
      RevisionDecidesStatus(s, t, p);
    } else if Lookup(t.hypotheses, p).Some? {
      assert HypothesisSound(t.evidence, p, Lookup(t.hypotheses, p).value);
    }
    assert Stale(t, p, c.premises[p]);
  }

  /** No batch records the conclusion. */
  ghost predicate NotRecordedIn(bs: seq<Batch>, key: string) {
    forall n, i {:trigger bs[n].conclusions[i]} ::
      0 <= n < |bs| && 0 <= i < |bs[n].conclusions| ==> Strip(bs[n].conclusions[i].id) != key
  }

  lemma {:induction false} NotRerecordedByBatch(b: Batch, ops: seq<Op>, key: string)
    requires AllAsked(b, ops) && forall i {:trigger b.conclusions[i]} ::
      0 <= i < |b.conclusions| ==> Strip(b.conclusions[i].id) != key
    ensures NotRerecorded(ops, key)
  {
    forall k | 0 <= k < |ops|
      ensures !Rerecords(ops[k], key)
    {
      assert AsksFor(b, ops[k]);
    }
  }

  /** Once invalid, a conclusion stays invalid over any batches that do not record it. */
  lemma {:induction false} InvalidStaysOverBatches(s: State, key: string, bs: seq<Batch>)
    requires Sound(s) && NotRecordedIn(bs, key) && Lookup(s.conclusions, key).Some?
    requires !Valid(s, Lookup(s.conclusions, key).value)
    ensures Lookup(Batches(s, bs).conclusions, key) == Lookup(s.conclusions, key)
    ensures !Valid(Batches(s, bs), Lookup(s.conclusions, key).value)
    decreases |bs|
  {
    if bs != [] {
      var ops := BatchOps(s, bs[0]);
      NotRerecordedByBatch(bs[0], ops, key);
      InvalidStays(s, key, ops);
      RunKeeps(s, ops);
      forall n, i | 0 <= n < |bs[1..]| && 0 <= i < |bs[1..][n].conclusions|
        ensures Strip(bs[1..][n].conclusions[i].id) != key
      {
        assert bs[1..][n] == bs[n + 1];
      }
      InvalidStaysOverBatches(ApplyBatch(s, bs[0]), key, bs[1..]);
    }
  }

  // Retraction

  ghost predicate Retracted(s: State, id: string) {
    Lookup(s.evidence, id).Some? && Lookup(s.evidence, id).value.retracted
  }

  ghost predicate PutsBack(op: Op, id: string) {
    op.Register? && Strip(op.update.id) == id && op.update.retracted == Some(false)
  }

  lemma {:induction false} CorrectionKeepsRetracted(s: State, u: EvidenceUpdate, id: string)
    requires Retracted(s, id)
    requires Strip(u.id) == id ==> u.retracted != Some(false)
    ensures Retracted(AddEvidence(s, u).state, id)
  {
    var key := Strip(u.id);
    var record := Corrected(Lookup(s.evidence, key), key, u);
    LookupPut(s.evidence, key, record, id);
    assert key == id ==> record.retracted;
  }

  lemma {:induction false} DeclareKeepsEvidence(s: State, d: Declaration)
    ensures Declare(s, d).state.evidence == s.evidence
    ensures s.revision <= Declare(s, d).state.revision
    ensures Declare(s, d).state.revision == s.revision ==> Declare(s, d).state == s
  {}

  lemma {:induction false} RetractedStep(s: State, op: Op, id: string)
    requires !PutsBack(op, id) && Retracted(s, id)
    ensures Retracted(Apply(s, op), id)
  {
    match op {
      case Goal(_) =>
      case Register(u) => CorrectionKeepsRetracted(s, u, id);
      case Declaring(d) => DeclareKeepsEvidence(s, d);
      case Reopening(_, _, _) =>
      case Concluding(_, _, _) =>
    }
  }

  /** A retracted item stays retracted until an explicit retracted=false. */
  lemma {:induction false} RetractedStays(s: State, ops: seq<Op>, id: string)
    requires Retracted(s, id)
    requires forall i {:trigger ops[i]} :: 0 <= i < |ops| ==> !PutsBack(ops[i], id)
    ensures Retracted(Run(s, ops), id)
    decreases |ops|
  {
    if ops != [] {
      RetractedStep(s, ops[0], id);
      RetractedStays(Apply(s, ops[0]), ops[1..], id);
    }
  }

  /** No item of any batch says retracted=false of the evidence. */
  ghost predicate NotPutBackIn(bs: seq<Batch>, id: string) {
    forall n, i {:trigger bs[n].evidence[i]} ::
      0 <= n < |bs| && 0 <= i < |bs[n].evidence| ==> !PutsBack(Register(bs[n].evidence[i].update), id)
  }

  /** A retracted item stays retracted over any batches none of whose items puts it back. */
  lemma {:induction false} RetractedStaysOverBatches(s: State, bs: seq<Batch>, id: string)
    requires Retracted(s, id) && NotPutBackIn(bs, id)
    ensures Retracted(Batches(s, bs), id)
    decreases |bs|
  {
    if bs != [] {
      var b := bs[0];
      var ops := BatchOps(s, b);
      forall k | 0 <= k < |ops|
        ensures !PutsBack(ops[k], id)
      {
        assert AsksFor(b, ops[k]);
      }
      RetractedStays(s, ops, id);
      forall n, i | 0 <= n < |bs[1..]| && 0 <= i < |bs[1..][n].evidence|
        ensures !PutsBack(Register(bs[1..][n].evidence[i].update), id)
      {
        assert bs[1..][n] == bs[n + 1];
      }
      RetractedStaysOverBatches(ApplyBatch(s, b), bs[1..], id);
    }
  }

  // Revisions

  lemma {:induction false} RevisionMoves(s: State, op: Op)
    ensures s.revision <= Apply(s, op).revision
    ensures Apply(s, op).revision == s.revision ==> Apply(s, op) == s
  {
    match op {
      case Goal(_) =>
      case Register(_) =>
      case Declaring(d) => DeclareKeepsEvidence(s, d);
      case Reopening(_, _, _) =>
      case Concluding(_, _, _) =>
    }
  }

  lemma {:induction false} RevisionMovesThrough(s: State, ops: seq<Op>)
    ensures s.revision <= Run(s, ops).revision
    ensures Run(s, ops).revision == s.revision ==> Run(s, ops) == s
    decreases |ops|
  {
    if ops != [] {
      RevisionMoves(s, ops[0]);
      RevisionMovesThrough(Apply(s, ops[0]), ops[1..]);
    }
  }

  /** A batch that leaves the revision unchanged leaves everything unchanged. */
  lemma {:induction false} UnchangedRevision(s: State, b: Batch)
    ensures s.revision <= ApplyBatch(s, b).revision
    ensures ApplyBatch(s, b).revision == s.revision ==> ApplyBatch(s, b) == s
  {
    var ops := BatchOps(s, b);
    RevisionMovesThrough(s, ops);
  }

  // Saving and loading

  lemma {:induction false} PutNew<T>(t: Table<T>, k: string, v: T)
    requires forall i :: 0 <= i < |t| ==> t[i].0 != k
    ensures Put(t, k, v) == t + [(k, v)]
  {
    if t != [] {
      PutNew(t[1..], k, v);
    }
  }

  lemma {:induction false} ValuesAt<T>(t: Table<T>)
    ensures |Values(t)| == |t| && forall i :: 0 <= i < |t| ==> Values(t)[i] == t[i].1
  {
    if t != [] {
      ValuesAt(t[1..]);
    }
  }

  lemma {:induction false} KeyedValues<T>(t: Table<T>, id: T -> string, n: nat)
    requires n <= |t| == |Values(t)| && Unique(t) && forall i :: 0 <= i < |t| ==> t[i].0 == id(t[i].1)
    ensures Keyed(Values(t), id, n) == t[..n]
  {
    if n > 0 {
      KeyedValues(t, id, n - 1);
      ValuesAt(t);
      PutNew(t[..n - 1], t[n - 1].0, t[n - 1].1);
    }
  }

  lemma {:induction false} LookupAt<T>(t: Table<T>, i: nat)
    requires Unique(t) && i < |t|
    ensures Lookup(t, t[i].0) == Some(t[i].1)
  {
    if i > 0 {
      LookupAt(t[1..], i - 1);
    }
  }

  lemma {:induction false} TableRoundTrip<T>(t: Table<T>, id: T -> string)
    requires Unique(t) && forall k {:trigger Lookup(t, k)} :: Lookup(t, k).Some? ==> id(Lookup(t, k).value) == k
    ensures Keyed(Values(t), id, |Values(t)|) == t
  {
    ValuesAt(t);
    forall i | 0 <= i < |t|
      ensures t[i].0 == id(t[i].1)
    {
      LookupAt(t, i);
    }
    KeyedValues(t, id, |t|);
    assert t[..|t|] == t;
  }

  /** Loading what was saved gives the same ledger: entries, their order, and with them
      every derived validity. */
  lemma {:induction false} SavedLedgerLoads(ops: seq<Op>)
    ensures FromDict(ToDict(Run(EMPTY, ops))) == Some(Run(EMPTY, ops))
  {
    EmptyIsSound();
    RunKeeps(EMPTY, ops);
    var s := Run(EMPTY, ops);
    TableRoundTrip(s.evidence, (e: Evidence) => e.id);
    TableRoundTrip(s.hypotheses, (h: Hypothesis) => h.id);
    TableRoundTrip(s.conclusions, (c: Conclusion) => c.id);
  }
}
