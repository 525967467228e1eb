/** Putting one plain message into an accepted payload: when the validator still has
    nothing to repair. */
module PayloadInsertion {
  import opened Text
  import opened ChatPayload
  import opened WellFormedPayload
  import opened RepairConservation
  import opened ContextCuts

  /** No system message stands behind index 0. */
  predicate NoLateSystem(ms: seq<Message>) {
    forall q :: 0 < q < |ms| ==> !ms[q].System?
  }

  function Inserted(ms: seq<Message>, at: nat, m: Message): (r: seq<Message>)
    requires at <= |ms|
    ensures |r| == |ms| + 1 && r[at] == m && forall x: nat :: x < |ms| ==> r[Moved(x, at)] == ms[x]
  {
    ms[..at] + [m] + ms[at..]
  }

  /** Where position x is found behind an insertion. */
  function Moved(x: nat, at: nat): nat { if x < at then x else x + 1 }

  function Origin(y: nat, at: nat): nat { if y < at then y else if y == at then 0 else y - 1 }

  /** A payload, a place in front of which nothing is announced, and a plain message for it. */
  ghost predicate Insertable(ms: seq<Message>, at: nat, m: Message) {
    && at <= |ms| && PlainMessage(m) && (forall p :: 0 <= p < at ==> CallsOf(ms[p]) == [])
  }

  lemma {:induction false} InsertedCall(ms: seq<Message>, at: nat, m: Message, y: nat, i: nat)
    requires Insertable(ms, at, m) && CallIn(Inserted(ms, at, m), y, i)
    ensures y > at && CallIn(ms, y - 1, i) && CallAt(ms, y - 1, i) == CallAt(Inserted(ms, at, m), y, i)
  {
    var r := Inserted(ms, at, m);
    assert forall p :: 0 <= p < at ==> r[p] == ms[p] && CallsOf(r[p]) == [];
    assert r[Moved(y - 1, at)] == ms[y - 1];
  }

  lemma {:induction false} MovedCall(ms: seq<Message>, at: nat, m: Message, p: nat, i: nat)
    requires Insertable(ms, at, m) && CallIn(ms, p, i)
    ensures CallIn(Inserted(ms, at, m), p + 1, i) && CallAt(Inserted(ms, at, m), p + 1, i) == CallAt(ms, p, i)
        && p >= at
  {
    assert Inserted(ms, at, m)[Moved(p, at)] == ms[p];
  }

  lemma {:induction false} InsertedUnique(ms: seq<Message>, at: nat, m: Message)
    requires Insertable(ms, at, m) && UniqueCalls(ms)
    ensures UniqueCalls(Inserted(ms, at, m))
  {
    var r := Inserted(ms, at, m);
    forall p: nat, i: nat | CallIn(r, p, i)
      ensures Good(CallAt(r, p, i))
    {
      InsertedCall(ms, at, m, p, i);
    }
    forall p: nat, i: nat, q: nat, j: nat | SameId(r, p, i, q, j)
      ensures p == q && i == j
    {
      InsertedCall(ms, at, m, p, i);
      InsertedCall(ms, at, m, q, j);
      assert SameId(ms, p - 1, i, q - 1, j);
    }
  }

  lemma {:induction false} TakenThere(ms: seq<Message>, at: nat, m: Message, id: string)
    requires Insertable(ms, at, m) && UniqueCalls(ms) && id in Taken(ms, |ms|)
    ensures id in Taken(Inserted(ms, at, m), |Inserted(ms, at, m)|)
  {
    InsertedUnique(ms, at, m);
    var p, i := TakenAnnounced(ms, |ms|, id);
    MovedCall(ms, at, m, p, i);
    TakenAll(Inserted(ms, at, m), p + 1, i);
  }

  /** The first answer among the messages before n stands at a. */
  lemma {:induction false} FirstIsAnswerAt(ms: seq<Message>, n: nat, id: string, a: nat)
    requires a < n <= |ms| && Answers(ms[a], id) && forall q: nat :: q < a ==> !Answers(ms[q], id)
    ensures AnswerAt(ms, n, id) == Some(a)
  {
    AnswerAtFirst(ms, n, id);
  }

  lemma {:induction false} NoneIsNoAnswer(ms: seq<Message>, n: nat, id: string)
    requires n <= |ms| && forall q: nat :: q < n ==> !Answers(ms[q], id)
    ensures AnswerAt(ms, n, id) == None
  {
    AnswerAtFirst(ms, n, id);
  }

  /** Answers move with their positions. */
  lemma {:induction false} InsertedAnswers(ms: seq<Message>, at: nat, m: Message, y: nat, id: string)
    requires at <= |ms| && PlainMessage(m) && y <= |ms|
    ensures Answers(Inserted(ms, at, m)[y], id) ==> y != at && Origin(y, at) < |ms| && Answers(ms[Origin(y, at)], id)
  {
    var r := Inserted(ms, at, m);
    if y != at {
      assert r[Moved(Origin(y, at), at)] == ms[Origin(y, at)];
    }
  }

  lemma {:induction false} InsertedAnswerAt(ms: seq<Message>, at: nat, m: Message, id: string)
    requires at <= |ms| && PlainMessage(m) && AnswerAt(ms, |ms|, id).Some?
    ensures AnswerAt(Inserted(ms, at, m), |ms| + 1, id) == Some(Moved(AnswerAt(ms, |ms|, id).value, at))
  {
    var a, r := AnswerAt(ms, |ms|, id).value, Inserted(ms, at, m);
    AnswerAtFirst(ms, |ms|, id);
    forall q: nat | q < Moved(a, at)
      ensures !Answers(r[q], id)
    {
      InsertedAnswers(ms, at, m, q, id);
    }
    assert r[Moved(a, at)] == ms[a];
    FirstIsAnswerAt(r, |r|, id, Moved(a, at));
  }

  /** A result without defect: its id is announced, none before it answers that id, and it
      has text. */
  lemma {:induction false} CleanResultIff(ms: seq<Message>, q: nat)
    requires q < |ms| && ms[q].Result?
    ensures ResultDefect(ms, q) == {} <==>
      && ms[q].callId.Some? && ms[q].callId.value in Taken(ms, |ms|) && ms[q].content.Words?
      && AnswerAt(ms, q, ms[q].callId.value).None?
  {}

  lemma {:induction false} StillFirst(ms: seq<Message>, at: nat, m: Message, y: nat, id: string)
    requires at <= |ms| && PlainMessage(m) && y <= |ms| && y != at
    requires AnswerAt(ms, Origin(y, at), id).None?
    ensures AnswerAt(Inserted(ms, at, m), y, id).None?
  {
    var r := Inserted(ms, at, m);
    AnswerAtFirst(ms, Origin(y, at), id);
    forall z: nat | z < y
      ensures !Answers(r[z], id)
    {
      InsertedAnswers(ms, at, m, z, id);
    }
    NoneIsNoAnswer(r, y, id);
  }

  lemma {:induction false} InsertedResult(ms: seq<Message>, at: nat, m: Message, y: nat)
    requires Insertable(ms, at, m) && Spotless(ms) && y < |ms| + 1
    ensures ResultDefect(Inserted(ms, at, m), y) == {}
  {
    var r, q := Inserted(ms, at, m), Origin(y, at);
    if r[y].Result? {
      assert r[Moved(q, at)] == ms[q];
      assert ResultDefect(ms, q) == {};
      CleanResultIff(ms, q);
      var id := ms[q].callId.value;
      TakenThere(ms, at, m, id);
      StillFirst(ms, at, m, y, id);
      CleanResultIff(r, y);
    }
  }

  /** A group has no defect exactly when its calls are answered in order and without gaps. */
  lemma {:induction false} AcceptedGroupHasNoDefect(ms: seq<Message>, p: nat)
    requires p < |ms| && ms[p].Assistant? && UniqueCalls(ms) && AcceptedGroup(ms, p)
    ensures GroupDefects(ms, p) == {}
  {
    var g :| AnsweredAt(ms, p, g) && Sorted(g) && !Gapped(p, g);
    var kept := KeptAt(ms, p);
    UniqueKept(ms, p);
    forall i: nat | i < |kept|
      ensures AnswerAt(ms, |ms|, IdOf(kept[i])) == Some(g[i])
    {
      assert FirstAnsweredAt(ms, p, g, i);
      CanonicalsAt(CallsOf(ms[p]), |kept|, i);
    }
    AllAnswered(ms, kept, |kept|);
    PositionsOf(ms, kept, |kept|);
    assert GroupPositions(ms, kept, |kept|) == g;
  }

  function MovedAll(g: seq<nat>, at: nat): (r: seq<nat>)
    ensures |r| == |g| && forall k :: 0 <= k < |r| ==> r[k] == Moved(g[k], at)
  {
    seq(|g|, k requires 0 <= k < |g| => Moved(g[k], at))
  }

  lemma {:induction false} MovedShape(g: seq<nat>, at: nat, p: nat)
    requires Sorted(g) && !Gapped(p, g) && at <= p
    ensures Sorted(MovedAll(g, at)) && !Gapped(p + 1, MovedAll(g, at))
  {
    var r := MovedAll(g, at);
    forall a, q: nat | a in r && p + 1 < q < a
      ensures q in r
    {
      var k :| 0 <= k < |r| && r[k] == a;
      assert a - 1 == g[k] && g[k] in g;
      assert q - 1 in g;
      var j :| 0 <= j < |g| && g[j] == q - 1;
      assert r[j] == q;
    }
  }

  lemma {:induction false} InsertedFirst(ms: seq<Message>, at: nat, m: Message, p: nat, g: seq<nat>, k: nat)
    requires Insertable(ms, at, m) && FirstAnsweredAt(ms, p, g, k)
    ensures FirstAnsweredAt(Inserted(ms, at, m), p + 1, MovedAll(g, at), k)
  {
    MovedCall(ms, at, m, p, k);
    InsertedAnswerAt(ms, at, m, CallAt(ms, p, k).id.value);
  }

  lemma {:induction false} InsertedGroup(ms: seq<Message>, at: nat, m: Message, p: nat)
    requires Insertable(ms, at, m) && UniqueCalls(ms) && p < |ms| && CallsOf(ms[p]) != [] && AcceptedGroup(ms, p)
    ensures AcceptedGroup(Inserted(ms, at, m), p + 1)
  {
    var r := Inserted(ms, at, m);
    var g :| AnsweredAt(ms, p, g) && Sorted(g) && !Gapped(p, g);
    var moved, y := MovedAll(g, at), p + 1;
    assert CallIn(ms, p, 0);
    MovedCall(ms, at, m, p, 0);
    MovedShape(g, at, p);
    assert r[Moved(p, at)] == ms[p];
    forall k: nat | k < |moved|
      ensures FirstAnsweredAt(r, y, moved, k)
    {
      assert FirstAnsweredAt(ms, p, g, k);
      InsertedFirst(ms, at, m, p, g, k);
    }
    assert AnsweredAt(r, y, moved);
  }

  lemma {:induction false} SpotlessGroup(ms: seq<Message>, p: nat)
    requires Spotless(ms) && p < |ms| && CallsOf(ms[p]) != []
    ensures AcceptedGroup(ms, p)
  {
    assert PlaceDefect(ms, p) == {};
    PlaceWithoutDefects(ms, p);
  }

  lemma {:induction false} GroupPlace(ms: seq<Message>, p: nat)
    requires p < |ms| && CallsOf(ms[p]) != [] && UniqueCalls(ms) && AcceptedGroup(ms, p)
    ensures PlaceDefect(ms, p) == {}
  {
    AcceptedGroupHasNoDefect(ms, p);
  }

  lemma {:induction false} PlainPlace(ms: seq<Message>, p: nat)
    requires p < |ms| && CallsOf(ms[p]) == [] && NoLateSystem(ms)
    ensures PlaceDefect(ms, p) == {}
  {}

  lemma {:induction false} InsertedPlace(ms: seq<Message>, at: nat, m: Message, y: nat)
    requires Insertable(ms, at, m) && Spotless(ms) && NoLateSystem(Inserted(ms, at, m)) && y < |ms| + 1
    ensures PlaceDefect(Inserted(ms, at, m), y) == {}
  {
    var r := Inserted(ms, at, m);
    if CallsOf(r[y]) == [] {
      PlainPlace(r, y);
    } else {
      assert CallIn(r, y, 0);
      InsertedCall(ms, at, m, y, 0);
      SpotlessGroup(ms, y - 1);
      InsertedGroup(ms, at, m, y - 1);
      InsertedUnique(ms, at, m);
      GroupPlace(r, y);
    }
  }

  /** Into a payload without defect a plain message may be put in front of every
      announcement, as long as no system message comes to stand late. */
  lemma {:induction false} InsertedIsSpotless(ms: seq<Message>, at: nat, m: Message)
    requires Insertable(ms, at, m) && Spotless(ms) && NoLateSystem(Inserted(ms, at, m))
    ensures Spotless(Inserted(ms, at, m))
  {
    var r := Inserted(ms, at, m);
    InsertedUnique(ms, at, m);
    forall y: nat | y < |r|
      ensures ResultDefect(r, y) == {} && PlaceDefect(r, y) == {}
    {
      InsertedResult(ms, at, m, y);
      InsertedPlace(ms, at, m, y);
    }
  }

  /** A payload with a late system message behind anything that stays in place is repaired. */
  lemma {:induction false} LateSystemIsRepaired(ms: seq<Message>)
    requires ms != [] && !ms[0].Result? && !NoLateSystem(ms)
    ensures Validate(ms).messages != ms
  {
    var q :| 0 < q < |ms| && ms[q].System?;
    StartedBehind(ms, q);
    assert PlaceDefect(ms, q) == {SystemPosition};
    NoDefectsIffSpotless(ms);
    RepairIsWellFormed(ms);
  }

  // System messages

  predicate SystemFree(ms: seq<Message>) {
    forall q :: 0 <= q < |ms| ==> !ms[q].System?
  }

  lemma {:induction false} AdditionSystemFree(ms: seq<Message>, p: nat, started: bool)
    requires p < |ms| && SystemFree(ms)
    ensures SystemFree(Addition(PieceAt(ms, p), started))
  {
    var m := ms[p];
    if m.Assistant? && m.calls != [] {
      var kept := KeptAt(ms, p);
      AnswersForAt(ms, kept, |kept|);
      var rs := AnswersFor(ms, kept, |kept|);
      forall i | 0 <= i < |rs|
        ensures !rs[i].System?
      {
        assert rs[i] == AnswerFor(ms, kept[i]);
      }
    }
  }

  lemma {:induction false} OneMoreSystemFree(ms: seq<Message>, n: nat)
    requires 0 < n <= |ms| && SystemFree(ms) && SystemFree(Rebuilt(Pieces(ms), n - 1))
    ensures SystemFree(Rebuilt(Pieces(ms), n))
  {
    var r, b, started := RebuiltParts(ms, n);
    AdditionSystemFree(ms, n - 1, started);
  }

  lemma {:induction false} RebuiltSystemFree(ms: seq<Message>, n: nat)
    requires n <= |ms| && SystemFree(ms)
    ensures SystemFree(Rebuilt(Pieces(ms), n))
  {
    if n > 0 {
      RebuiltSystemFree(ms, n - 1);
      OneMoreSystemFree(ms, n);
    }
  }

  /** The validator brings in no system message. */
  lemma {:induction false} ValidatedSystemFree(ms: seq<Message>)
    requires SystemFree(ms)
    ensures SystemFree(Validate(ms).messages)
  {
    RebuiltSystemFree(ms, |ms|);
  }

  /** Nor does it put one behind index 0. */
  lemma {:induction false} ValidatedNoLateSystem(ms: seq<Message>)
    requires NoLateSystem(ms)
    ensures NoLateSystem(Validate(ms).messages)
  {
    if !Validate(ms).ok {
      RepairIsWellFormed(ms);
    }
  }

  // Requests

  lemma {:induction false} AcceptedIsSpotless(ms: seq<Message>)
    ensures Validate(ms).messages == ms <==> Spotless(ms)
  {
    NoDefectsIffSpotless(ms);
    if !Spotless(ms) && Validate(ms).messages == ms {
      RepairIsWellFormed(ms);
    }
  }

  /** A playbook block changes what the validator accepts exactly when a system message
      stands behind index 0. */
  lemma {:induction false} BlockAcceptedIff(ms: seq<Message>, block: string)
    requires Validate(ms).messages == ms && block != ""
    ensures Validate(WithBlock(ms, block)).messages == WithBlock(ms, block) <==> NoLateSystem(ms)
  {
    var at, m := if Headed(ms) then 1 else 0, Assistant(Words(block), []);
    var r := Inserted(ms, at, m);
    assert WithBlock(ms, block) == r;
    assert forall x: nat :: x < |ms| ==> r[Moved(x, at)] == ms[x];
    if NoLateSystem(ms) {
      InsertedNoLateSystem(ms, at, m);
      AcceptedIsSpotless(ms);
      InsertedIsSpotless(ms, at, m);
      AcceptedIsSpotless(r);
    } else {
      if at == 1 {
        LateSystemIsRepaired(ms);
      }
      var q :| 0 < q < |ms| && ms[q].System?;
      assert r[q + 1] == ms[q] && r[0] == m;
      LateSystemIsRepaired(r);
    }
  }

  lemma {:induction false} InsertedNoLateSystem(ms: seq<Message>, at: nat, m: Message)
    requires NoLateSystem(ms) && PlainMessage(m) && at == if Headed(ms) then 1 else 0
    ensures NoLateSystem(Inserted(ms, at, m))
  {
    var r := Inserted(ms, at, m);
    forall y | 0 < y < |r|
      ensures !r[y].System?
    {
      assert y == at || r[y] == ms[y - 1];
    }
  }

  /** The payload sent is the payload counted if and only if the playbook block is empty,
      the bound has cut the payload, or the validated messages have no system message
      behind index 0. */
  lemma {:induction false} SentAsCountedIff(live: seq<Message>, block: string, max: nat, keep: nat)
    ensures var counted, v := Requested(live, block, max, keep), Validate(live).messages;
      Validate(counted).messages == counted
      <==> block == "" || Cuts(WithBlock(v, block), max, keep) || NoLateSystem(v)
  {
    var v := Validate(live).messages;
    var w := WithBlock(v, block);
    ValidateIdempotent(live);
    if Cuts(w, max, keep) {
      ValidateIdempotent(CutDown(w, BoundKeeps(w, max, keep)));
    } else if block != "" {
      BlockAcceptedIff(v, block);
    }
  }
}
