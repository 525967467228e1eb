/** What every sequence of ledger updates keeps. */
module LedgerRules {
  import opened Text
  import opened Ledger

  // Dictionaries

  predicate Unique<T>(t: Table<T>) {
    forall i, j :: 0 <= i < j < |t| ==> t[i].0 != t[j].0
  }

  lemma {:induction false} LookupPut<T>(t: Table<T>, k: string, v: T, other: string)
    ensures Lookup(Put(t, k, v), other) == if other == k then Some(v) else Lookup(t, other)
  {
    if t != [] && t[0].0 != k {
      assert ([t[0]] + Put(t[1..], k, v))[1..] == Put(t[1..], k, v);
      LookupPut(t[1..], k, v, other);
    } else if t != [] {
      assert ([(k, v)] + t[1..])[1..] == t[1..];
    } else {
      assert [(k, v)][1..] == [];
    }
  }

  lemma {:induction false} LookupKey<T>(t: Table<T>, k: string)
    ensures Lookup(t, k).Some? <==> exists i :: 0 <= i < |t| && t[i].0 == k
  {
    if t != [] {
      LookupKey(t[1..], k);
      assert forall i :: 0 < i < |t| ==> t[i] == t[1..][i - 1];
    }
  }

  lemma {:induction false} PutKeys<T>(t: Table<T>, k: string, v: T, i: nat)
    requires i < |Put(t, k, v)|
    ensures Put(t, k, v)[i].0 == k || exists j :: 0 <= j < |t| && t[j].0 == Put(t, k, v)[i].0
  {
    if t != [] && t[0].0 != k {
      if i > 0 {
        PutKeys(t[1..], k, v, i - 1);
        if Put(t, k, v)[i].0 != k {
          var j :| 0 <= j < |t[1..]| && t[1..][j].0 == Put(t[1..], k, v)[i - 1].0;
          assert t[j + 1].0 == Put(t, k, v)[i].0;
        }
      }
    } else if t != [] && i > 0 {
      assert Put(t, k, v)[i] == t[i];
    }
  }

  lemma {:induction false} UniquePut<T>(t: Table<T>, k: string, v: T)
    requires Unique(t)
    ensures Unique(Put(t, k, v))
  {
    if t != [] && t[0].0 != k {
      var rest := Put(t[1..], k, v);
      UniquePut(t[1..], k, v);
      forall i | 0 <= i < |rest|
        ensures rest[i].0 != t[0].0
      {
        PutKeys(t[1..], k, v, i);
      }
    }
  }

  // Updates as single operations

  datatype Op =
    | Goal(text: string)
    | Register(update: EvidenceUpdate)
    | Declaring(declaration: Declaration)
    | Reopening(id: string, evidence: string, note: string)
    | Concluding(id: string, statement: string, premises: seq<string>)

  function Apply(s: State, op: Op): State {
    match op
    case Goal(text) => SetGoal(s, text)
    case Register(u) => AddEvidence(s, u).state
    case Declaring(d) => Declare(s, d).state
    case Reopening(id, e, note) => Reopen(s, id, e, note).state
    case Concluding(id, statement, premises) => AddConclusion(s, id, statement, premises).state
  }

  function Run(s: State, ops: seq<Op>): State
    decreases |ops|
  {
    if ops == [] then s else Run(Apply(s, ops[0]), ops[1..])
  }

  lemma {:induction false} RunConcat(s: State, a: seq<Op>, b: seq<Op>)
    ensures Run(s, a + b) == Run(Run(s, a), b)
    decreases |a|
  {
    if a == [] {
      assert a + b == b;
    } else {
      assert (a + b)[1..] == a[1..] + b;
      RunConcat(Apply(s, a[0]), a[1..], b);
    }
  }

  lemma {:induction false} RunOne(s: State, op: Op)
    ensures Run(s, [op]) == Apply(s, op)
  {
    assert [op][1..] == [];
  }

  // The invariant

  /** Transition i carries revision i + 1 and, from the second on, a stripped citation; a
      way back from rejected cites what no earlier transition cites. */
  ghost predicate TransitionSound(ts: seq<Transition>, i: nat)
    requires i < |ts|
  {
    && ts[i].revision == i + 1
    && (i > 0 ==> Tight(ts[i].evidence))
    && (i > 0 && ts[i - 1].status.Rejected? && ts[i].status.Active? ==>
          ts[i].evidence != "" && forall j :: 0 <= j < i ==> ts[j].evidence != ts[i].evidence)
  }

  ghost predicate CitesRegistered(evidence: Table<Evidence>, ts: seq<Transition>) {
    forall i {:trigger ts[i]} :: 0 <= i < |ts| ==>
      Strip(ts[i].evidence) == "" || Lookup(evidence, Strip(ts[i].evidence)).Some?
  }

  ghost predicate HistorySound(h: Hypothesis) {
    && h.revision == |h.transitions| >= 1
    && h.status == h.transitions[|h.transitions| - 1].status
    && (forall i: nat {:trigger TransitionSound(h.transitions, i)} :: i < |h.transitions| ==>
          TransitionSound(h.transitions, i))
  }

  ghost predicate HypothesisSound(evidence: Table<Evidence>, k: string, h: Hypothesis) {
    h.id == k && HistorySound(h) && CitesRegistered(evidence, h.transitions)
  }

  function RevisionIn(hypotheses: Table<Hypothesis>, p: string): nat {
    match Lookup(hypotheses, p)
    case None => 0
    case Some(h) => h.revision
  }

  /** No premise is pinned to a revision its hypothesis has yet to reach. */
  ghost predicate PinsReached(hypotheses: Table<Hypothesis>, c: Conclusion) {
    forall p {:trigger RevisionIn(hypotheses, p)} :: p in c.premises ==> c.premises[p] <= RevisionIn(hypotheses, p)
  }

  ghost predicate Sound(s: State) {
    && Unique(s.evidence) && Unique(s.hypotheses) && Unique(s.conclusions)
    && (forall k {:trigger Lookup(s.evidence, k)} :: Lookup(s.evidence, k).Some? ==>
          Lookup(s.evidence, k).value.id == k)
    && (forall k {:trigger Lookup(s.hypotheses, k)} :: Lookup(s.hypotheses, k).Some? ==>
          HypothesisSound(s.evidence, k, Lookup(s.hypotheses, k).value))
    && (forall k {:trigger Lookup(s.conclusions, k)} :: Lookup(s.conclusions, k).Some? ==>
          Lookup(s.conclusions, k).value.id == k && PinsReached(s.hypotheses, Lookup(s.conclusions, k).value))
  }

  /** Evidence stays registered, and hypotheses only gain transitions. */
  ghost predicate Extends(s: State, t: State) {
    && (forall k {:trigger Lookup(t.evidence, k)} :: Lookup(s.evidence, k).Some? ==> Lookup(t.evidence, k).Some?)
    && (forall k {:trigger Lookup(t.hypotheses, k)} :: Lookup(s.hypotheses, k).Some? ==>
          && Lookup(t.hypotheses, k).Some?
          && Lookup(s.hypotheses, k).value.transitions <= Lookup(t.hypotheses, k).value.transitions)
    && s.revision <= t.revision
  }

  // Each operation

  lemma {:induction false} PutEvidenceKeeps(s: State, e: Evidence)
    requires Sound(s)
    ensures var t := s.(evidence := Put(s.evidence, e.id, e), revision := s.revision + 1); Sound(t) && Extends(s, t)
  {
    UniquePut(s.evidence, e.id, e);
    forall k
      ensures Lookup(Put(s.evidence, e.id, e), k) == if k == e.id then Some(e) else Lookup(s.evidence, k)
    {
      LookupPut(s.evidence, e.id, e, k);
    }
  }

  lemma {:induction false} RegisterKeeps(s: State, u: EvidenceUpdate)
    requires Sound(s)
    ensures Sound(AddEvidence(s, u).state) && Extends(s, AddEvidence(s, u).state)
  {
    var id := Strip(u.id);
    if id != "" {
      PutEvidenceKeeps(s, Corrected(Lookup(s.evidence, id), id, u));
    }
  }

  /** Putting a sound hypothesis that continues the one before it. */
  lemma {:induction false} PutHypothesisKeeps(s: State, h: Hypothesis)
    requires Sound(s) && HypothesisSound(s.evidence, h.id, h)
    requires Lookup(s.hypotheses, h.id).Some? ==> Lookup(s.hypotheses, h.id).value.transitions <= h.transitions
    ensures var t := s.(hypotheses := Put(s.hypotheses, h.id, h), revision := s.revision + 1);
            Sound(t) && Extends(s, t)
  {
    var table := Put(s.hypotheses, h.id, h);
    UniquePut(s.hypotheses, h.id, h);
    forall k
      ensures Lookup(table, k) == if k == h.id then Some(h) else Lookup(s.hypotheses, k)
    {
      LookupPut(s.hypotheses, h.id, h, k);
    }
    assert forall k :: RevisionIn(s.hypotheses, k) <= RevisionIn(table, k);
  }

  lemma {:induction false} CitedIff(ts: seq<Transition>, n: nat, e: string)
    requires n <= |ts|
    ensures e in CitedIn(ts, n) <==> e != "" && exists j :: 0 <= j < n && ts[j].evidence == e
  {
    if n > 0 {
      CitedIff(ts, n - 1, e);
    }
  }

  /** The transition a move adds is sound. */
  lemma {:induction false} AddedSound(s: State, h: Hypothesis, status: Status, evidence: string, note: string,
                                      reopen: bool)
    requires HistorySound(h) && MayMove(s, h, status, evidence, reopen)
    ensures TransitionSound(Moved(h, status, Strip(evidence), note).transitions, |h.transitions|)
  {
    CitedIff(h.transitions, |h.transitions|, Strip(evidence));
  }

  lemma {:induction false} MovedSound(s: State, h: Hypothesis, status: Status, evidence: string, note: string,
                                      reopen: bool)
    requires HypothesisSound(s.evidence, h.id, h) && MayMove(s, h, status, evidence, reopen)
    ensures HypothesisSound(s.evidence, h.id, Moved(h, status, Strip(evidence), note))
  {
    var m := Moved(h, status, Strip(evidence), note);
    StripTight(Strip(evidence));
    forall i: nat | i < |m.transitions|
      ensures TransitionSound(m.transitions, i)
    {
      if i < |h.transitions| {
        assert TransitionSound(h.transitions, i);
      } else {
        AddedSound(s, h, status, evidence, note, reopen);
      }
    }
  }

  lemma {:induction false} MoveKeeps(s: State, h: Hypothesis, status: Status, evidence: string, note: string,
                                     reopen: bool)
    requires Sound(s) && Lookup(s.hypotheses, h.id) == Some(h)
    ensures var t := Move(s, h, status, evidence, note, reopen).state; Sound(t) && Extends(s, t)
  {
    if MayMove(s, h, status, evidence, reopen) {
      assert HypothesisSound(s.evidence, h.id, h);
      MovedSound(s, h, status, evidence, note, reopen);
      PutHypothesisKeeps(s, Moved(h, status, Strip(evidence), note));
    }
  }

  lemma {:induction false} ExtendsTrans(s: State, t: State, u: State)
    requires Extends(s, t) && Extends(t, u)
    ensures Extends(s, u)
  {
    forall k | Lookup(s.hypotheses, k).Some?
      ensures Lookup(u.hypotheses, k).Some?
          && Lookup(s.hypotheses, k).value.transitions <= Lookup(u.hypotheses, k).value.transitions
    {
      assert Lookup(t.hypotheses, k).Some?;
    }
    forall k | Lookup(s.evidence, k).Some?
      ensures Lookup(u.evidence, k).Some?
    {
      assert Lookup(t.evidence, k).Some?;
    }
  }

  lemma {:induction false} RewordKeeps(s: State, h: Hypothesis, statement: string)
    requires Sound(s) && Lookup(s.hypotheses, h.id) == Some(h)
    ensures var t := Reworded(s, h, statement);
      Sound(t) && Extends(s, t)
      && Lookup(t.hypotheses, h.id) == Some(if statement != "" then h.(statement := statement) else h)
  {
    var g := h.(statement := statement);
    assert HypothesisSound(s.evidence, h.id, h);
    assert forall i: nat :: i < |h.transitions| ==> TransitionSound(h.transitions, i);
    PutHypothesisKeeps(s, g);
    LookupPut(s.hypotheses, h.id, g, h.id);
  }

  lemma {:induction false} FirstSound(s: State, d: Declaration)
    requires Strip(d.id) != "" && d.status.Some? && Citable(s, d.evidence, true)
    ensures var h := Hypothesis(Strip(d.id), Short(d.statement, 220), d.status.value, 1,
                                [Transition(1, d.status.value, d.evidence, Short(d.note, 120))]);
            HypothesisSound(s.evidence, Strip(d.id), h)
  {}

  lemma {:induction false} DeclareKeeps(s: State, d: Declaration)
    requires Sound(s)
    ensures Sound(Declare(s, d).state) && Extends(s, Declare(s, d).state)
  {
    var id := Strip(d.id);
    if id != "" && d.status.Some? {
      var existing := Lookup(s.hypotheses, id);
      if existing.None? {
        if Citable(s, d.evidence, true) {
          FirstSound(s, d);
          PutHypothesisKeeps(s, Hypothesis(id, Short(d.statement, 220), d.status.value, 1,
                                           [Transition(1, d.status.value, d.evidence, Short(d.note, 120))]));
        }
      } else {
        var h, statement := existing.value, Short(d.statement, 220);
        assert HypothesisSound(s.evidence, id, h);
        RewordKeeps(s, h, statement);
        var t, g := Reworded(s, h, statement), if statement != "" then h.(statement := statement) else h;
        if d.status.value != h.status {
          MoveKeeps(t, g, d.status.value, d.evidence, d.note, false);
          ExtendsTrans(s, t, Declare(s, d).state);
        }
      }
    }
  }

  lemma {:induction false} ReopenKeeps(s: State, id: string, evidence: string, note: string)
    requires Sound(s)
    ensures Sound(Reopen(s, id, evidence, note).state) && Extends(s, Reopen(s, id, evidence, note).state)
  {
    var h := Lookup(s.hypotheses, Strip(id));
    if h.Some? {
      assert HypothesisSound(s.evidence, Strip(id), h.value);
      MoveKeeps(s, h.value, Active, evidence, note, true);
    }
  }

  lemma {:induction false} PinnedAt(s: State, premises: seq<string>, n: nat, p: string)
    requires n <= |premises|
    ensures p in Pinned(s, premises, n) <==> p != "" && exists i :: 0 <= i < n && Strip(premises[i]) == p
    ensures p in Pinned(s, premises, n) ==> Pinned(s, premises, n)[p] == PinnedRevision(s, p)
  {
    if n > 0 {
      PinnedAt(s, premises, n - 1, p);
    }
  }

  lemma {:induction false} ConcludeKeeps(s: State, id: string, statement: string, premises: seq<string>)
    requires Sound(s)
    ensures var t := AddConclusion(s, id, statement, premises).state; Sound(t) && Extends(s, t)
  {
    var key := Strip(id);
    var c := Conclusion(key, Short(statement, 220), Pinned(s, premises, |premises|));
    forall p | p in c.premises
      ensures c.premises[p] <= RevisionIn(s.hypotheses, p)
    {
      PinnedAt(s, premises, |premises|, p);
    }
    UniquePut(s.conclusions, key, c);
    forall k
      ensures Lookup(Put(s.conclusions, key, c), k) == if k == key then Some(c) else Lookup(s.conclusions, k)
    {
      LookupPut(s.conclusions, key, c, k);
    }
  }

  lemma {:induction false} ApplyKeeps(s: State, op: Op)
    requires Sound(s)
    ensures Sound(Apply(s, op)) && Extends(s, Apply(s, op))
  {
    match op {
      case Goal(text) =>
      case Register(u) => RegisterKeeps(s, u);
      case Declaring(d) => DeclareKeeps(s, d);
      case Reopening(id, e, note) => ReopenKeeps(s, id, e, note);
      case Concluding(id, statement, premises) => ConcludeKeeps(s, id, statement, premises);
    }
  }

  /** Every reachable ledger is sound. */
  lemma {:induction false} RunKeeps(s: State, ops: seq<Op>)
    requires Sound(s)
    ensures Sound(Run(s, ops)) && Extends(s, Run(s, ops))
    decreases |ops|
  {
    if ops != [] {
      ApplyKeeps(s, ops[0]);
      RunKeeps(Apply(s, ops[0]), ops[1..]);
      ExtendsTrans(s, Apply(s, ops[0]), Run(s, ops));
    }
  }

  lemma {:induction false} EmptyIsSound()
    ensures Sound(EMPTY)
  {}
}
