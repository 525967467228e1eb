/** What the payload repair keeps: every message that is not a result, every announced
    call, and the first result of each call. */
module RepairConservation {
  import opened Text
  import opened ChatPayload
  import opened WellFormedPayload

  /** The messages of a payload that are not results, in order. */
  function Rest(r: seq<Message>): seq<Message> {
    if r == [] then []
    else if r[|r| - 1].Result? then Rest(r[..|r| - 1])
    else Rest(r[..|r| - 1]) + [r[|r| - 1]]
  }

  /** Positions, among the first n, of the messages that keep a place of their own:
      everything but the results of announced calls. */
  function Residents(ms: seq<Message>, n: nat): seq<nat>
    requires n <= |ms|
  {
    if n == 0 then []
    else if ms[n - 1].Result? && !Orphan(ms[n - 1], Taken(ms, |ms|)) then Residents(ms, n - 1)
    else Residents(ms, n - 1) + [n - 1]
  }

  // Which call of an id survives

  /** The call at (p, i) carries this id and a tool name. */
  predicate AskedAt(ms: seq<Message>, p: nat, i: nat, id: string) {
    CallIn(ms, p, i) && CallAt(ms, p, i).id == Some(id) && Named(CallAt(ms, p, i).name)
  }

  /** Such a call stands in front of (p, n). */
  ghost predicate AskedBefore(ms: seq<Message>, p: nat, n: nat, id: string) {
    exists q: nat, j: nat {:trigger AskedAt(ms, q, j, id)} :: AskedAt(ms, q, j, id) && (q < p || (q == p && j < n))
  }

  /** The call at (p, i) has an id and a name and is the first to ask for its id. */
  ghost predicate FirstAsk(ms: seq<Message>, p: nat, i: nat) {
    && CallIn(ms, p, i) && Named(CallAt(ms, p, i).id) && Named(CallAt(ms, p, i).name)
    && !AskedBefore(ms, p, i, CallAt(ms, p, i).id.value)
  }

  /** The first asks among the first n calls at p, in canonical form. */
  ghost function FirstAsks(ms: seq<Message>, p: nat, n: nat): seq<Call>
    requires p < |ms| && n <= |CallsOf(ms[p])|
  {
    if n == 0 then []
    else if FirstAsk(ms, p, n - 1) then FirstAsks(ms, p, n - 1) + [Canonical(CallAt(ms, p, n - 1))]
    else FirstAsks(ms, p, n - 1)
  }

  lemma {:induction false} AskedBeforeStep(ms: seq<Message>, p: nat, n: nat, id: string)
    requires p < |ms| && 0 < n <= |CallsOf(ms[p])|
    ensures AskedBefore(ms, p, n, id) <==> AskedBefore(ms, p, n - 1, id) || AskedAt(ms, p, n - 1, id)
  {}

  lemma {:induction false} AskedBeforeNext(ms: seq<Message>, p: nat, id: string)
    requires p < |ms|
    ensures AskedBefore(ms, p + 1, 0, id) <==> AskedBefore(ms, p, |CallsOf(ms[p])|, id)
  {}

  /** The ids taken are those asked for. */
  lemma {:induction false} TakenByIff(ms: seq<Message>, p: nat, n: nat, id: string)
    requires p < |ms| && n <= |CallsOf(ms[p])|
    ensures id in TakenBy(CallsOf(ms[p]), Taken(ms, p), n) <==> id != "" && AskedBefore(ms, p, n, id)
    decreases p, n + 1
  {
    if n == 0 {
      TakenIff(ms, p, id);
    } else {
      TakenByIff(ms, p, n - 1, id);
      AskedBeforeStep(ms, p, n, id);
      assert CallAt(ms, p, n - 1) == CallsOf(ms[p])[n - 1];
    }
  }

  lemma {:induction false} TakenIff(ms: seq<Message>, p: nat, id: string)
    requires p <= |ms|
    ensures id in Taken(ms, p) <==> id != "" && AskedBefore(ms, p, 0, id)
    decreases p, 0
  {
    if p > 0 {
      TakenByIff(ms, p - 1, |CallsOf(ms[p - 1])|, id);
      AskedBeforeNext(ms, p - 1, id);
    }
  }

  /** The calls kept are the first asks. */
  lemma {:induction false} KeptIsFirst(ms: seq<Message>, p: nat, n: nat)
    requires p < |ms| && n <= |CallsOf(ms[p])|
    ensures Kept(CallsOf(ms[p]), Taken(ms, p), n) == FirstAsks(ms, p, n)
  {
    if n > 0 {
      KeptIsFirst(ms, p, n - 1);
      var c := CallAt(ms, p, n - 1);
      if c.id.Some? {
        TakenByIff(ms, p, n - 1, c.id.value);
      }
    }
  }

  // Messages

  /** How the message at p looks after the repair; `first` if nothing is placed in front of
      it. */
  ghost predicate Carries(ms: seq<Message>, p: nat, first: bool, m': Message)
    requires p < |ms|
  {
    match ms[p]
    case System(_) => m' == if first then ms[p] else SystemNote(ms[p])
    case Assistant(c, calls) =>
      && m'.Assistant? && m'.calls == FirstAsks(ms, p, |calls|)
      && (Shown(m'.content) == Shown(c)
          || (Shown(c) == "" && calls != [] && m'.calls == [] && Shown(m'.content) == "[도구 실행 지시]"))
    case Result(_, _, _) => m' == Demoted(ms[p])
    case _ => m' == ms[p]
  }

  ghost predicate CarriesAll(ms: seq<Message>, at: seq<nat>, rest: seq<Message>) {
    && |rest| == |at|
    && (forall k :: 0 <= k < |at| ==> at[k] < |ms| && Carries(ms, at[k], k == 0, rest[k]))
  }

  lemma {:induction false} RestConcat(a: seq<Message>, b: seq<Message>)
    ensures Rest(a + b) == if Rest(b) == [] then Rest(a) else Rest(a) + Rest(b)
  {
    if b == [] {
      assert a + b == a;
    } else {
      var m := a + b;
      assert m[..|m| - 1] == a + b[..|b| - 1] && m[|m| - 1] == b[|b| - 1];
      RestConcat(a, b[..|b| - 1]);
    }
  }

  lemma {:induction false} RestOfResults(rs: seq<Message>)
    requires forall i :: 0 <= i < |rs| ==> rs[i].Result?
    ensures Rest(rs) == []
  {
    if rs != [] {
      RestOfResults(rs[..|rs| - 1]);
    }
  }

  lemma {:induction false} RestOne(m: Message)
    ensures Rest([m]) == if m.Result? then [] else [m]
  {
    assert [m][..0] == [];
  }

  lemma {:induction false} HeaderText(m: Message, kept: seq<Call>)
    requires m.Assistant?
    ensures Header(m, kept).Assistant? && CallsOf(Header(m, kept)) == kept
    ensures Shown(Header(m, kept).content) == Shown(m.content)
            || (Shown(m.content) == "" && m.calls != [] && kept == []
                && Shown(Header(m, kept).content) == "[도구 실행 지시]")
  {}

  lemma {:induction false} HeaderCarries(ms: seq<Message>, p: nat, first: bool)
    requires p < |ms| && ms[p].Assistant?
    ensures Carries(ms, p, first, Header(ms[p], KeptAt(ms, p)))
  {
    KeptIsFirst(ms, p, |ms[p].calls|);
    HeaderText(ms[p], KeptAt(ms, p));
  }

  lemma {:induction false} StartedResides(ms: seq<Message>, n: nat)
    requires n <= |ms|
    ensures Started(ms, n) <==> Residents(ms, n) != []
  {
    if n > 0 {
      StartedResides(ms, n - 1);
    }
  }

  /** What is rebuilt from n messages, as what n - 1 gave and what the last one adds. */
  lemma {:induction false} RebuiltParts(ms: seq<Message>, n: nat)
    returns (r: seq<Message>, b: seq<Message>, started: bool)
    requires 0 < n <= |ms|
    ensures started <==> Residents(ms, n - 1) != []
    ensures r == Rebuilt(Pieces(ms), n - 1) && b == Addition(PieceAt(ms, n - 1), started)
    ensures Rebuilt(Pieces(ms), n) == r + b
  {
    var piece := PieceAt(ms, n - 1);
    r := Rebuilt(Pieces(ms), n - 1);
    started := r != [];
    StartedIff(ms, n - 1);
    StartedResides(ms, n - 1);
    b := Addition(piece, started);
    assert Rebuilt(Pieces(ms), n) == r + b by {
      RebuiltStep(ms, n - 1);
      PlaceAdds(r, piece);
    }
  }

  lemma {:induction false} PlaceAdds(r: seq<Message>, piece: Piece)
    ensures Place(r, piece) == r + Addition(piece, r != [])
  {}

  lemma {:induction false} GroupRest(ms: seq<Message>, p: nat)
    requires p < |ms| && ms[p].Assistant? && ms[p].calls != []
    ensures var h := Header(ms[p], KeptAt(ms, p));
            Rest([h] + AnswersFor(ms, KeptAt(ms, p), |KeptAt(ms, p)|)) == [h]
  {
    var kept := KeptAt(ms, p);
    var h, rs := Header(ms[p], kept), AnswersFor(ms, kept, |kept|);
    AnswersForAt(ms, kept, |kept|);
    forall i | 0 <= i < |rs|
      ensures rs[i].Result?
    {
      assert rs[i] == AnswerFor(ms, kept[i]);
    }
    RestOfResults(rs);
    RestOne(h);
    RestConcat([h], rs);
  }

  /** The at most one message, other than results, that position p adds. */
  lemma {:induction false} PieceRest(ms: seq<Message>, p: nat, started: bool) returns (x: seq<Message>)
    requires p < |ms|
    ensures Rest(Addition(PieceAt(ms, p), started)) == x
    ensures x == [] <==> ms[p].Result? && !Orphan(ms[p], Taken(ms, |ms|))
    ensures x != [] ==> |x| == 1 && Carries(ms, p, !started, x[0])
  {
    var m := ms[p];
    match PieceAt(ms, p) {
      case Gone =>
        x := [];
      case Alone(a) =>
        x := [if a.System? && started then SystemNote(a) else a];
        RestOne(x[0]);
      case Group(h, _) =>
        x := [h];
        GroupRest(ms, p);
        HeaderCarries(ms, p, !started);
    }
  }

  lemma {:induction false} RestGrows(r: seq<Message>, b: seq<Message>, x: seq<Message>)
    requires Rest(b) == x
    ensures Rest(r + b) == if x == [] then Rest(r) else Rest(r) + x
  {
    RestConcat(r, b);
  }

  lemma {:induction false} CarriesMore(ms: seq<Message>, at: seq<nat>, rest: seq<Message>, q: nat, x: seq<Message>)
    requires CarriesAll(ms, at, rest) && q < |ms| && |x| == 1 && Carries(ms, q, at == [], x[0])
    ensures CarriesAll(ms, at + [q], rest + x)
  {}

  lemma {:induction false} ResidentStep(ms: seq<Message>, n: nat, rest: seq<Message>, x: seq<Message>)
    requires 0 < n <= |ms| && CarriesAll(ms, Residents(ms, n - 1), rest)
    requires x == [] <==> ms[n - 1].Result? && !Orphan(ms[n - 1], Taken(ms, |ms|))
    requires x != [] ==> |x| == 1 && Carries(ms, n - 1, Residents(ms, n - 1) == [], x[0])
    ensures CarriesAll(ms, Residents(ms, n), if x == [] then rest else rest + x)
  {
    if x != [] {
      CarriesMore(ms, Residents(ms, n - 1), rest, n - 1, x);
    }
  }

  lemma {:induction false} NoResidents(ms: seq<Message>)
    ensures CarriesAll(ms, Residents(ms, 0), Rest(Rebuilt(Pieces(ms), 0)))
  {}

  lemma {:induction false} OneMoreResident(ms: seq<Message>, n: nat)
    requires 0 < n <= |ms| && CarriesAll(ms, Residents(ms, n - 1), Rest(Rebuilt(Pieces(ms), n - 1)))
    ensures CarriesAll(ms, Residents(ms, n), Rest(Rebuilt(Pieces(ms), n)))
  {
    var r, b, started := RebuiltParts(ms, n);
    var x := PieceRest(ms, n - 1, started);
    RestGrows(r, b, x);
    ResidentStep(ms, n, Rest(r), x);
  }

  lemma {:induction false} ResidentsCarried(ms: seq<Message>, n: nat)
    requires n <= |ms|
    ensures CarriesAll(ms, Residents(ms, n), Rest(Rebuilt(Pieces(ms), n)))
  {
    if n == 0 {
      NoResidents(ms);
    } else {
      ResidentsCarried(ms, n - 1);
      OneMoreResident(ms, n);
    }
  }

  /** Every message that is not the result of an announced call keeps its place in the
      order: an orphan result as a user message, a system message as it is if it comes first
      and else as a user note, an announcement with those of its calls that ask for an id
      first, any other message unchanged. */
  lemma {:induction false} MessagesConserved(ms: seq<Message>)
    ensures CarriesAll(ms, Residents(ms, |ms|), Rest(Repaired(ms)))
  {
    ResidentsCarried(ms, |ms|);
    var r := Repaired(ms);
    assert r == Rebuilt(Pieces(ms), |ms|);
  }

  // Calls and their results

  /** Each call of r is followed, in its place, by the result that `ms` has for it. */
  ghost predicate AnsweredFrom(ms: seq<Message>, r: seq<Message>) {
    forall p: nat, i: nat {:trigger CallAt(r, p, i)} :: CallIn(r, p, i) ==>
      p + 1 + i < |r| && r[p + 1 + i] == AnswerFor(ms, CallAt(r, p, i))
  }

  lemma {:induction false} AnsweredFromNothing(ms: seq<Message>)
    ensures AnsweredFrom(ms, [])
  {
    forall p: nat, i: nat | CallIn([], p, i)
      ensures false
    {}
  }

  lemma {:induction false} AnsweredFromConcat(ms: seq<Message>, a: seq<Message>, b: seq<Message>)
    requires AnsweredFrom(ms, a) && AnsweredFrom(ms, b)
    ensures AnsweredFrom(ms, a + b)
  {
    var r := a + b;
    forall p: nat, i: nat | CallIn(r, p, i)
      ensures p + 1 + i < |r| && r[p + 1 + i] == AnswerFor(ms, CallAt(r, p, i))
    {
      InEither(a, b, p, i);
      if p < |a| {
        assert CallAt(r, p, i) == CallAt(a, p, i);
      } else {
        assert CallAt(r, p, i) == CallAt(b, p - |a|, i);
      }
    }
  }

  lemma {:induction false} AnsweredFromOne(ms: seq<Message>, m: Message)
    requires CallsOf(m) == []
    ensures AnsweredFrom(ms, [m])
  {
    forall p: nat, i: nat | CallIn([m], p, i)
      ensures false
    {}
  }

  lemma {:induction false} GroupAnswered(ms: seq<Message>, h: Message, kept: seq<Call>)
    requires CallsOf(h) == kept
    ensures AnsweredFrom(ms, [h] + AnswersFor(ms, kept, |kept|))
  {
    var rs := AnswersFor(ms, kept, |kept|);
    var b := [h] + rs;
    AnswersForAt(ms, kept, |kept|);
    forall q: nat | 0 < q < |b|
      ensures CallsOf(b[q]) == []
    {
      NoCallsBehind(ms, kept, q - 1);
    }
    forall q: nat, i: nat | CallIn(b, q, i)
      ensures q + 1 + i < |b| && b[q + 1 + i] == AnswerFor(ms, CallAt(b, q, i))
    {
      assert b[1 + i] == AnswersFor(ms, kept, |kept|)[i];
    }
  }

  lemma {:induction false} AdditionAnswered(ms: seq<Message>, p: nat, started: bool)
    requires p < |ms|
    ensures AnsweredFrom(ms, Addition(PieceAt(ms, p), started))
  {
    match PieceAt(ms, p) {
      case Gone =>
        AnsweredFromNothing(ms);
      case Alone(m) =>
        AnsweredFromOne(ms, if m.System? && started then SystemNote(m) else m);
      case Group(h, rs) =>
        GroupAnswered(ms, h, KeptAt(ms, p));
    }
  }

  lemma {:induction false} NoCallsBehind(ms: seq<Message>, kept: seq<Call>, i: nat)
    requires i < |AnswersFor(ms, kept, |kept|)|
    ensures CallsOf(AnswersFor(ms, kept, |kept|)[i]) == []
  {
    AnswersForAt(ms, kept, |kept|);
    assert AnswersFor(ms, kept, |kept|)[i] == AnswerFor(ms, kept[i]);
  }

  lemma {:induction false} NothingAnswered(ms: seq<Message>)
    ensures AnsweredFrom(ms, Rebuilt(Pieces(ms), 0))
  {
    AnsweredFromNothing(ms);
  }

  lemma {:induction false} OneMoreAnswered(ms: seq<Message>, n: nat)
    requires 0 < n <= |ms| && AnsweredFrom(ms, Rebuilt(Pieces(ms), n - 1))
    ensures AnsweredFrom(ms, Rebuilt(Pieces(ms), n))
  {
    var r, b, started := RebuiltParts(ms, n);
    AdditionAnswered(ms, n - 1, started);
    AnsweredFromConcat(ms, r, b);
  }

  lemma {:induction false} RebuiltAnswered(ms: seq<Message>, n: nat)
    requires n <= |ms|
    ensures AnsweredFrom(ms, Rebuilt(Pieces(ms), n))
  {
    if n == 0 {
      NothingAnswered(ms);
    } else {
      RebuiltAnswered(ms, n - 1);
      OneMoreAnswered(ms, n);
    }
  }

  lemma {:induction false} TakenIsKept(calls: seq<Call>, seen: set<string>, n: nat, id: string) returns (i: nat)
    requires n <= |calls| && id in TakenBy(calls, seen, n) && id !in seen
    ensures i < |Kept(calls, seen, n)| && Kept(calls, seen, n)[i].id == Some(id)
  {
    if id in TakenBy(calls, seen, n - 1) {
      i := TakenIsKept(calls, seen, n - 1, id);
      assert Kept(calls, seen, n)[i] == Kept(calls, seen, n - 1)[i];
    } else {
      i := |Kept(calls, seen, n - 1)|;
    }
  }

  /** An id newly taken at p is announced by what p adds. */
  lemma {:induction false} NewlyAnnounced(ms: seq<Message>, p: nat, started: bool, id: string)
    requires p < |ms| && id in Taken(ms, p + 1) && id !in Taken(ms, p)
    ensures Announces(Addition(PieceAt(ms, p), started), id)
  {
    var calls := CallsOf(ms[p]);
    var i := TakenIsKept(calls, Taken(ms, p), |calls|, id);
    assert ms[p].Assistant?;
    var b := Addition(PieceAt(ms, p), started);
    assert b[0] == Header(ms[p], KeptAt(ms, p));
    assert CallIn(b, 0, i) && CallAt(b, 0, i).id == Some(id);
  }

  lemma {:induction false} AnnouncesEither(a: seq<Message>, b: seq<Message>, id: string)
    requires Announces(a, id) || Announces(b, id)
    ensures Announces(a + b, id)
  {
    if Announces(a, id) {
      var p: nat, i: nat :| CallIn(a, p, i) && CallAt(a, p, i).id == Some(id);
      InFirst(a, b, p, i);
      assert CallAt(a + b, p, i).id == Some(id);
    } else {
      var p: nat, i: nat :| CallIn(b, p, i) && CallAt(b, p, i).id == Some(id);
      InSecond(a, b, p, i);
      assert CallAt(a + b, |a| + p, i).id == Some(id);
    }
  }

  lemma {:induction false} OneMoreAnnounced(ms: seq<Message>, n: nat, id: string)
    requires 0 < n <= |ms| && id in Taken(ms, n)
    requires id in Taken(ms, n - 1) ==> Announces(Rebuilt(Pieces(ms), n - 1), id)
    ensures Announces(Rebuilt(Pieces(ms), n), id)
  {
    var r, b, started := RebuiltParts(ms, n);
    if id !in Taken(ms, n - 1) {
      NewlyAnnounced(ms, n - 1, started, id);
    }
    AnnouncesEither(r, b, id);
  }

  lemma {:induction false} TakenIsAnnounced(ms: seq<Message>, n: nat, id: string)
    requires n <= |ms| && id in Taken(ms, n)
    ensures Announces(Rebuilt(Pieces(ms), n), id)
  {
    if id in Taken(ms, n - 1) {
      TakenIsAnnounced(ms, n - 1, id);
    }
    OneMoreAnnounced(ms, n, id);
  }

  /** Some call of the payload carries this id and a tool name. */
  ghost predicate Asks(ms: seq<Message>, id: string) {
    exists p: nat, i: nat {:trigger AskedAt(ms, p, i, id)} :: AskedAt(ms, p, i, id)
  }

  lemma {:induction false} TakenIffAsked(ms: seq<Message>, id: string)
    ensures id in Taken(ms, |ms|) <==> id != "" && Asks(ms, id)
  {
    TakenIff(ms, |ms|, id);
  }

  /** The repair announces exactly the non-empty ids that some named call carried. */
  lemma {:induction false} CallsConserved(ms: seq<Message>, id: string)
    ensures Announces(Repaired(ms), id) <==> id != "" && Asks(ms, id)
  {
    var r := Repaired(ms);
    assert r == Rebuilt(Pieces(ms), |ms|);
    TakenIffAsked(ms, id);
    if Announces(r, id) {
      PiecesFit(ms);
      RebuiltIsWellFormed(Pieces(ms), TakenUpTo(ms), |ms|);
    }
    if id != "" && Asks(ms, id) {
      TakenIsAnnounced(ms, |ms|, id);
    }
  }

  /** Position q holds the first result of its id. */
  predicate FirstFor(ms: seq<Message>, q: nat, id: string) {
    && q < |ms| && Answers(ms[q], id)
    && (forall k: nat :: k < q ==> !Answers(ms[k], id))
  }

  /** The result behind a call of the repair is the first the input had for its id,
      unchanged when it has text, and a placeholder exactly when the input had none. */
  lemma {:induction false} ResultsConserved(ms: seq<Message>, p: nat, i: nat)
    requires CallIn(Repaired(ms), p, i)
    ensures CallAt(Repaired(ms), p, i).id.Some? && p + 1 + i < |Repaired(ms)|
    ensures
      var c, a := CallAt(Repaired(ms), p, i), Repaired(ms)[p + 1 + i];
      || (a == Placeholder(c) && forall q: nat :: q < |ms| ==> !Answers(ms[q], c.id.value))
      || (exists q: nat :: FirstFor(ms, q, c.id.value) && a == Completed(ms[q]))
  {
    var r := Repaired(ms);
    assert r == Rebuilt(Pieces(ms), |ms|);
    RebuiltAnswered(ms, |ms|);
    var c := CallAt(r, p, i);
    assert Good(c) by {
      RepairedIsWellFormed(ms);
    }
    var id := c.id.value;
    AnswerAtFirst(ms, |ms|, id);
    assert r[p + 1 + i] == AnswerFor(ms, c);
    match AnswerAt(ms, |ms|, id) {
      case Some(q) => assert FirstFor(ms, q, id);
      case None =>
    }
  }

  /** No first result is lost: it stands behind the call it answers, or its id was never
      asked for and it stays as a user message. */
  lemma {:induction false} FirstResultSurvives(ms: seq<Message>, q: nat, id: string)
    requires FirstFor(ms, q, id)
    ensures id != "" && Asks(ms, id) ==>
      exists p: nat, i: nat {:trigger CallAt(Repaired(ms), p, i)} :: CallIn(Repaired(ms), p, i)
        && CallAt(Repaired(ms), p, i).id == Some(id)
        && p + 1 + i < |Repaired(ms)| && Repaired(ms)[p + 1 + i] == Completed(ms[q])
    ensures !(id != "" && Asks(ms, id)) ==> q in Residents(ms, |ms|)
  {
    if id != "" && Asks(ms, id) {
      CallsConserved(ms, id);
      var p: nat, i: nat :| CallIn(Repaired(ms), p, i) && CallAt(Repaired(ms), p, i).id == Some(id);
      ResultsConserved(ms, p, i);
      assert Answers(ms[q], id);
    } else {
      TakenIffAsked(ms, id);
      OrphanResides(ms, |ms|, q);
    }
  }

  lemma {:induction false} OrphanResides(ms: seq<Message>, n: nat, q: nat)
    requires q < n <= |ms| && Orphan(ms[q], Taken(ms, |ms|))
    ensures q in Residents(ms, n)
  {
    if q < n - 1 {
      OrphanResides(ms, n - 1, q);
    }
  }
}
