/** What a well-formed payload is, exactly when the validator accepts one, and what its
    repair guarantees. */
module WellFormedPayload {
  import opened Text
  import opened ChatPayload

  predicate CallIn(ms: seq<Message>, p: nat, i: nat) {
    p < |ms| && i < |CallsOf(ms[p])|
  }

  function CallAt(ms: seq<Message>, p: nat, i: nat): Call
    requires CallIn(ms, p, i)
  {
    CallsOf(ms[p])[i]
  }

  predicate Good(c: Call) {
    Named(c.id) && Named(c.name) && c.arguments.Plain?
  }

  predicate SameId(ms: seq<Message>, p: nat, i: nat, q: nat, j: nat) {
    CallIn(ms, p, i) && CallIn(ms, q, j) && CallAt(ms, p, i).id == CallAt(ms, q, j).id
  }

  /** Every call names itself and its tool, and no id is announced twice. */
  ghost predicate UniqueCalls(ms: seq<Message>) {
    && (forall p: nat, i: nat {:trigger CallAt(ms, p, i)} :: CallIn(ms, p, i) ==> Good(CallAt(ms, p, i)))
    && (forall p: nat, i: nat, q: nat, j: nat {:trigger SameId(ms, p, i, q, j)} ::
          SameId(ms, p, i, q, j) ==> p == q && i == j)
  }

  /** The i-th call announced at p is answered, with text, i places behind the announcement. */
  predicate AnsweredInPlace(ms: seq<Message>, p: nat, i: nat)
    requires CallIn(ms, p, i)
  {
    && p + 1 + i < |ms|
    && ms[p + 1 + i].Result?
    && ms[p + 1 + i].callId == CallAt(ms, p, i).id
    && ms[p + 1 + i].content.Words?
  }

  /** Position q holds the result of some announced call. */
  ghost predicate InGroup(ms: seq<Message>, q: nat) {
    exists p: nat, i: nat :: CallIn(ms, p, i) && q == p + 1 + i
  }

  /** The grammar of a payload: unique calls, each assistant group immediately followed by
      exactly its results in call order, no other result, system only at index 0. */
  ghost predicate WellFormed(ms: seq<Message>) {
    && UniqueCalls(ms)
    && (forall p: nat, i: nat {:trigger AnsweredInPlace(ms, p, i)} :: CallIn(ms, p, i) ==> AnsweredInPlace(ms, p, i))
    && (forall q: nat {:trigger InGroup(ms, q)} :: q < |ms| && ms[q].Result? ==> InGroup(ms, q))
    && (forall q: nat :: 0 < q < |ms| ==> !ms[q].System?)
  }

  /** The result at q carries the id of the i-th call announced at p. */
  predicate AnswersCall(ms: seq<Message>, p: nat, i: nat, q: nat) {
    CallIn(ms, p, i) && q < |ms| && ms[q].Result? && ms[q].callId == CallAt(ms, p, i).id
  }

  /** No result stands before the message that announces its id. */
  ghost predicate NoEarlyResult(ms: seq<Message>) {
    forall p: nat, i: nat, q: nat {:trigger AnswersCall(ms, p, i, q)} ::
      AnswersCall(ms, p, i, q) && CallAt(ms, p, i).id.Some? ==> p <= q
  }

  // Announcements

  /** The i-th call is good, new, and named by no earlier call of its list. */
  ghost predicate CleanCall(calls: seq<Call>, seen: set<string>, i: nat)
    requires i < |calls|
  {
    && Good(calls[i])
    && calls[i].id.value !in seen
    && forall j: nat :: j < i ==> calls[j].id != calls[i].id
  }

  ghost predicate CleanList(calls: seq<Call>, seen: set<string>, n: nat)
    requires n <= |calls|
  {
    forall i: nat :: i < n ==> CleanCall(calls, seen, i)
  }

  lemma {:induction false} TakenByCalls(calls: seq<Call>, seen: set<string>, n: nat, id: string)
    requires n <= |calls| && id in TakenBy(calls, seen, n) && id !in seen
    ensures exists i: nat :: i < n && calls[i].id == Some(id)
  {
    if id in TakenBy(calls, seen, n - 1) {
      TakenByCalls(calls, seen, n - 1, id);
    }
  }

  lemma {:induction false} CleanAccepted(calls: seq<Call>, seen: set<string>, i: nat)
    requires i < |calls| && CleanCall(calls, seen, i)
    ensures Accepts(calls[i], TakenBy(calls, seen, i))
    ensures CallDefects(calls, seen)(i) == {}
  {
    var id := calls[i].id.value;
    if id in TakenBy(calls, seen, i) {
      TakenByCalls(calls, seen, i, id);
    }
  }

  /** The first n calls, each in canonical form. */
  function Canonicals(calls: seq<Call>, n: nat): (k: seq<Call>)
    requires n <= |calls|
    ensures |k| == n
  {
    if n == 0 then [] else Canonicals(calls, n - 1) + [Canonical(calls[n - 1])]
  }

  lemma {:induction false} CanonicalsAt(calls: seq<Call>, n: nat, i: nat)
    requires i < n <= |calls|
    ensures Canonicals(calls, n)[i] == Canonical(calls[i])
  {
    if i < n - 1 {
      CanonicalsAt(calls, n - 1, i);
    }
  }

  /** A clean list loses no call. */
  lemma {:induction false} CleanKept(calls: seq<Call>, seen: set<string>, n: nat)
    requires n <= |calls| && CleanList(calls, seen, n)
    ensures Kept(calls, seen, n) == Canonicals(calls, n)
  {
    if n > 0 {
      CleanKept(calls, seen, n - 1);
      assert CleanCall(calls, seen, n - 1);
      CleanAccepted(calls, seen, n - 1);
    }
  }

  lemma {:induction false} CleanIds(calls: seq<Call>, seen: set<string>, n: nat, i: nat)
    requires i < n <= |calls| && CleanList(calls, seen, n)
    ensures Good(calls[i]) && calls[i].id.value in TakenBy(calls, seen, n)
  {
    assert CleanCall(calls, seen, i);
    CleanAccepted(calls, seen, i);
    TakenByGrows(calls, seen, i + 1, n);
  }

  lemma {:induction false} GatherNone(found: nat -> set<Defect>, n: nat)
    ensures Gather(found, n) == {} <==> forall i: nat :: i < n ==> found(i) == {}
  {
    if n > 0 {
      GatherNone(found, n - 1);
      NoneOfEither(Gather(found, n - 1), found(n - 1));
    }
  }

  lemma {:induction false} NoneOfEither(a: set<Defect>, b: set<Defect>)
    ensures a + b == {} <==> a == {} && b == {}
  {
    assert a <= a + b && b <= a + b;
  }

  /** A defect-free call behind a clean list is clean. */
  lemma {:induction false} DefectFreeCall(calls: seq<Call>, seen: set<string>, n: nat)
    requires n < |calls| && CleanList(calls, seen, n)
    requires CallDefect(calls[n], TakenBy(calls, seen, n)) == {}
    ensures CleanCall(calls, seen, n)
  {
    assert Good(calls[n]);
    TakenByGrows(calls, seen, 0, n);
    forall j: nat | j < n
      ensures calls[j].id != calls[n].id
    {
      CleanIds(calls, seen, n, j);
    }
  }

  lemma {:induction false} DefectFreeList(calls: seq<Call>, seen: set<string>, n: nat)
    requires n <= |calls| && forall i: nat :: i < n ==> CallDefects(calls, seen)(i) == {}
    ensures CleanList(calls, seen, n)
  {
    if n > 0 {
      DefectFreeList(calls, seen, n - 1);
      assert CallDefects(calls, seen)(n - 1) == {};
      DefectFreeCall(calls, seen, n - 1);
    }
  }

  lemma {:induction false} TakenAnnounced(ms: seq<Message>, n: nat, id: string) returns (p: nat, i: nat)
    requires n <= |ms| && id in Taken(ms, n)
    ensures p < n && CallIn(ms, p, i) && CallAt(ms, p, i).id == Some(id)
  {
    if id in Taken(ms, n - 1) {
      p, i := TakenAnnounced(ms, n - 1, id);
    } else {
      p := n - 1;
      var calls := CallsOf(ms[p]);
      TakenByCalls(calls, Taken(ms, p), |calls|, id);
      i :| i < |calls| && calls[i].id == Some(id);
    }
  }

  /** Position p is clean against everything announced before it. */
  ghost predicate CleanAt(ms: seq<Message>, p: nat)
    requires p < |ms|
  {
    CleanList(CallsOf(ms[p]), Taken(ms, p), |CallsOf(ms[p])|)
  }

  lemma {:induction false} CleanAtIffNoDefect(ms: seq<Message>, p: nat)
    requires p < |ms|
    ensures CleanAt(ms, p) <==> AnnouncementDefect(ms, p) == {}
  {
    var calls, taken := CallsOf(ms[p]), Taken(ms, p);
    GatherNone(CallDefects(calls, taken), |calls|);
    if CleanAt(ms, p) {
      forall i: nat | i < |calls|
        ensures CallDefects(calls, taken)(i) == {}
      {
        assert CleanCall(calls, taken, i);
        CleanAccepted(calls, taken, i);
      }
    }
    if AnnouncementDefect(ms, p) == {} {
      DefectFreeList(calls, taken, |calls|);
    }
  }

  /** A cleanly announced id is taken from then on. */
  lemma {:induction false} CleanTaken(ms: seq<Message>, p: nat, i: nat, n: nat)
    requires n <= |ms| && CallIn(ms, p, i) && p < n && CleanAt(ms, p)
    ensures Good(CallAt(ms, p, i))
    ensures CallAt(ms, p, i).id.value in Taken(ms, n)
  {
    CleanIds(CallsOf(ms[p]), Taken(ms, p), |CallsOf(ms[p])|, i);
    TakenGrows(ms, p + 1, n);
  }

  lemma {:induction false} UniqueFromClean(ms: seq<Message>)
    requires forall p: nat :: p < |ms| ==> CleanAt(ms, p)
    ensures UniqueCalls(ms)
  {
    forall p: nat, i: nat | CallIn(ms, p, i)
      ensures Good(CallAt(ms, p, i))
    {
      CleanTaken(ms, p, i, |ms|);
    }
    forall p: nat, i: nat, q: nat, j: nat | SameId(ms, p, i, q, j)
      ensures p == q && i == j
    {
      assert CleanAt(ms, p) && CleanAt(ms, q);
      assert CleanCall(CallsOf(ms[p]), Taken(ms, p), i);
      assert CleanCall(CallsOf(ms[q]), Taken(ms, q), j);
      if p < q {
        CleanTaken(ms, p, i, q);
      } else if q < p {
        CleanTaken(ms, q, j, p);
      }
    }
  }

  lemma {:induction false} CleanFromUnique(ms: seq<Message>, p: nat)
    requires p < |ms| && UniqueCalls(ms)
    ensures CleanAt(ms, p)
  {
    var calls := CallsOf(ms[p]);
    forall i: nat | i < |calls|
      ensures CleanCall(calls, Taken(ms, p), i)
    {
      assert CallIn(ms, p, i) && CallAt(ms, p, i) == calls[i];
      forall j: nat | j < i
        ensures calls[j].id != calls[i].id
      {
        assert CallIn(ms, p, j) && CallAt(ms, p, j) == calls[j];
        assert !SameId(ms, p, j, p, i);
      }
      if calls[i].id.value in Taken(ms, p) {
        var q, j := TakenAnnounced(ms, p, calls[i].id.value);
        var same := SameId(ms, q, j, p, i);
      }
    }
  }

  /** Pass 1 finds no defect exactly when the calls are good and unique. */
  lemma {:induction false} AnnouncementsSound(ms: seq<Message>)
    ensures Gather(AnnouncementDefects(ms), |ms|) == {} <==> UniqueCalls(ms)
  {
    GatherNone(AnnouncementDefects(ms), |ms|);
    if Gather(AnnouncementDefects(ms), |ms|) == {} {
      forall p: nat | p < |ms|
        ensures CleanAt(ms, p)
      {
        assert AnnouncementDefects(ms)(p) == {};
        CleanAtIffNoDefect(ms, p);
      }
      UniqueFromClean(ms);
    }
    if UniqueCalls(ms) {
      forall p: nat | p < |ms|
        ensures AnnouncementDefects(ms)(p) == {}
      {
        CleanFromUnique(ms, p);
        CleanAtIffNoDefect(ms, p);
      }
    }
  }

  // Results

  lemma {:induction false} AnswerAtFirst(ms: seq<Message>, n: nat, id: string)
    requires n <= |ms|
    ensures AnswerAt(ms, n, id).None? ==> forall q: nat :: q < n ==> !Answers(ms[q], id)
    ensures AnswerAt(ms, n, id).Some? ==> forall q: nat :: q < AnswerAt(ms, n, id).value ==> !Answers(ms[q], id)
  {
    if n > 0 {
      AnswerAtFirst(ms, n - 1, id);
    }
  }

  /** No defect, place by place. */
  ghost predicate Spotless(ms: seq<Message>) {
    && UniqueCalls(ms)
    && (forall q: nat {:trigger ResultDefect(ms, q)} :: q < |ms| ==> ResultDefect(ms, q) == {})
    && (forall q: nat {:trigger PlaceDefect(ms, q)} :: q < |ms| ==> PlaceDefect(ms, q) == {})
  }

  lemma {:induction false} NoDefectsIffSpotless(ms: seq<Message>)
    ensures Defects(ms) == {} <==> Spotless(ms)
  {
    var a, r, b := AnnouncementDefects(ms), ResultDefects(ms), PlaceDefects(ms);
    NoneOfEither(Gather(a, |ms|) + Gather(r, |ms|), Gather(b, |ms|));
    NoneOfEither(Gather(a, |ms|), Gather(r, |ms|));
    AnnouncementsSound(ms);
    GatherNone(r, |ms|);
    GatherNone(b, |ms|);
    assert forall q: nat :: q < |ms| ==> r(q) == ResultDefect(ms, q) && b(q) == PlaceDefect(ms, q);
  }

  /** In a well-formed payload the only result for an id is the one in its place. */
  lemma {:induction false} OnlyAnswer(ms: seq<Message>, p: nat, i: nat, q: nat)
    requires WellFormed(ms) && CallIn(ms, p, i) && q < |ms|
    requires Answers(ms[q], CallAt(ms, p, i).id.value)
    ensures q == p + 1 + i
  {
    assert InGroup(ms, q);
    var p': nat, i': nat :| CallIn(ms, p', i') && q == p' + 1 + i';
    assert AnsweredInPlace(ms, p', i');
    assert CallAt(ms, p, i).id.Some?;
    assert SameId(ms, p', i', p, i);
  }

  lemma {:induction false} AnswerIsInPlace(ms: seq<Message>, p: nat, i: nat)
    requires WellFormed(ms) && CallIn(ms, p, i)
    ensures AnswerAt(ms, |ms|, CallAt(ms, p, i).id.value) == Some(p + 1 + i)
    ensures p + 1 + i < |ms| && AnswerAt(ms, p + 1 + i, CallAt(ms, p, i).id.value) == None
  {
    var id := CallAt(ms, p, i).id.value;
    assert AnsweredInPlace(ms, p, i);
    AnswerAtFirst(ms, |ms|, id);
    AnswerAtFirst(ms, p + 1 + i, id);
    var a := AnswerAt(ms, |ms|, id);
    assert Answers(ms[p + 1 + i], id);
    OnlyAnswer(ms, p, i, a.value);
  }

  lemma {:induction false} TakenAll(ms: seq<Message>, p: nat, i: nat)
    requires UniqueCalls(ms) && CallIn(ms, p, i)
    ensures CallAt(ms, p, i).id.value in Taken(ms, |ms|)
  {
    CleanFromUnique(ms, p);
    CleanTaken(ms, p, i, |ms|);
  }

  lemma {:induction false} WellFormedResults(ms: seq<Message>, q: nat)
    requires WellFormed(ms) && q < |ms|
    ensures ResultDefect(ms, q) == {}
  {
    if ms[q].Result? {
      assert InGroup(ms, q);
      var p: nat, i: nat :| CallIn(ms, p, i) && q == p + 1 + i;
      assert AnsweredInPlace(ms, p, i);
      AnswerIsInPlace(ms, p, i);
      TakenAll(ms, p, i);
    }
  }

  // Groups

  lemma {:induction false} UniqueKept(ms: seq<Message>, p: nat)
    requires p < |ms| && UniqueCalls(ms)
    ensures KeptAt(ms, p) == Canonicals(CallsOf(ms[p]), |CallsOf(ms[p])|)
  {
    CleanFromUnique(ms, p);
    CleanKept(CallsOf(ms[p]), Taken(ms, p), |CallsOf(ms[p])|);
  }

  /** The answers' positions of n answered calls, one per call. */
  lemma {:induction false} PositionsOf(ms: seq<Message>, kept: seq<Call>, n: nat)
    requires n <= |kept| && !Unanswered(ms, kept, n)
    ensures |GroupPositions(ms, kept, n)| == n
    ensures forall i: nat :: i < n ==> AnswerAt(ms, |ms|, IdOf(kept[i])) == Some(GroupPositions(ms, kept, n)[i])
  {
    if n > 0 {
      PositionsOf(ms, kept, n - 1);
    }
  }

  lemma {:induction false} AllAnswered(ms: seq<Message>, kept: seq<Call>, n: nat)
    requires n <= |kept|
    requires forall i: nat :: i < n ==> AnswerAt(ms, |ms|, IdOf(kept[i])).Some?
    ensures !Unanswered(ms, kept, n)
  {
    if n > 0 {
      AllAnswered(ms, kept, n - 1);
    }
  }

  lemma {:induction false} WellFormedGroup(ms: seq<Message>, p: nat)
    requires WellFormed(ms) && p < |ms| && ms[p].Assistant?
    ensures GroupDefects(ms, p) == {}
  {
    var kept := KeptAt(ms, p);
    UniqueKept(ms, p);
    forall i: nat | i < |kept|
      ensures AnswerAt(ms, |ms|, IdOf(kept[i])) == Some(p + 1 + i)
    {
      assert CallIn(ms, p, i);
      CanonicalsAt(CallsOf(ms[p]), |kept|, i);
      AnswerIsInPlace(ms, p, i);
    }
    AllAnswered(ms, kept, |kept|);
    PositionsOf(ms, kept, |kept|);
    var g := GroupPositions(ms, kept, |kept|);
    assert forall i: nat :: i < |g| ==> g[i] == p + 1 + i;
    forall a: nat, q: nat | a in g && p < q < a
      ensures q in g
    {
      assert q == g[q - p - 1];
    }
  }

  ghost predicate StrictlyBeyond(p: nat, g: seq<nat>) {
    && (forall i, j :: 0 <= i < j < |g| ==> g[i] < g[j])
    && (forall i :: 0 <= i < |g| ==> p < g[i])
  }

  /** A strictly increasing list beyond p without gaps is p + 1, p + 2, ... */
  lemma {:induction false} Contiguous(p: nat, g: seq<nat>, k: nat)
    requires k < |g| && !Gapped(p, g) && StrictlyBeyond(p, g)
    ensures g[k] == p + 1 + k
  {
    if k > 0 {
      Contiguous(p, g, k - 1);
    }
    assert g[k] in g;
    if p + 1 + k < g[k] && p + 1 + k in g {
      var j :| 0 <= j < |g| && g[j] == p + 1 + k;
    }
  }

  /** The k-th call announced at p is first answered at g[k]. */
  ghost predicate FirstAnsweredAt(ms: seq<Message>, p: nat, g: seq<nat>, k: nat) {
    && CallIn(ms, p, k) && k < |g|
    && Named(CallAt(ms, p, k).id)
    && AnswerAt(ms, |ms|, CallAt(ms, p, k).id.value) == Some(g[k])
  }

  ghost predicate AnsweredAt(ms: seq<Message>, p: nat, g: seq<nat>) {
    && p < |ms|
    && |g| == |CallsOf(ms[p])|
    && forall k: nat {:trigger FirstAnsweredAt(ms, p, g, k)} :: k < |g| ==> FirstAnsweredAt(ms, p, g, k)
  }

  /** Answers in call order that come late enough stand at increasing positions. */
  lemma {:induction false} OrderedAnswers(ms: seq<Message>, p: nat, g: seq<nat>)
    requires UniqueCalls(ms) && NoEarlyResult(ms) && AnsweredAt(ms, p, g) && Sorted(g)
    ensures StrictlyBeyond(p, g)
  {
    forall k | 0 <= k < |g|
      ensures p < g[k] && AnswersCall(ms, p, k, g[k])
    {
      assert FirstAnsweredAt(ms, p, g, k);
      assert AnswersCall(ms, p, k, g[k]) && ms[p].Assistant?;
    }
    forall j, k | 0 <= j < k < |g|
      ensures g[j] < g[k]
    {
      assert !SameId(ms, p, j, p, k);
      assert AnswersCall(ms, p, j, g[j]) && AnswersCall(ms, p, k, g[k]);
    }
  }

  /** The answers of the group at p stand in call order and without gaps. */
  ghost predicate AcceptedGroup(ms: seq<Message>, p: nat) {
    exists g: seq<nat> :: AnsweredAt(ms, p, g) && Sorted(g) && !Gapped(p, g)
  }

  lemma {:induction false} GroupWithoutDefects(ms: seq<Message>, p: nat)
    requires p < |ms| && ms[p].Assistant? && UniqueCalls(ms) && GroupDefects(ms, p) == {}
    ensures AcceptedGroup(ms, p)
  {
    var kept := KeptAt(ms, p);
    UniqueKept(ms, p);
    var g := GroupPositions(ms, kept, |kept|);
    PositionsOf(ms, kept, |kept|);
    forall k: nat | k < |g|
      ensures FirstAnsweredAt(ms, p, g, k)
    {
      assert CallIn(ms, p, k) && Good(CallAt(ms, p, k));
      CanonicalsAt(CallsOf(ms[p]), |kept|, k);
    }
    assert AnsweredAt(ms, p, g);
  }

  lemma {:induction false} PlaceWithoutDefects(ms: seq<Message>, p: nat)
    requires p < |ms| && ms[p].Assistant? && ms[p].calls != [] && UniqueCalls(ms) && PlaceDefect(ms, p) == {}
    ensures AcceptedGroup(ms, p)
  {
    assert PlaceDefect(ms, p) == GroupDefects(ms, p);
    GroupWithoutDefects(ms, p);
  }

  lemma {:induction false} GroupInPlace(ms: seq<Message>, p: nat, i: nat)
    requires UniqueCalls(ms) && NoEarlyResult(ms) && CallIn(ms, p, i) && AcceptedGroup(ms, p)
    ensures Named(CallAt(ms, p, i).id) && AnswerAt(ms, |ms|, CallAt(ms, p, i).id.value) == Some(p + 1 + i)
  {
    var g :| AnsweredAt(ms, p, g) && Sorted(g) && !Gapped(p, g);
    assert g[i] == p + 1 + i by {
      OrderedAnswers(ms, p, g);
      Contiguous(p, g, i);
    }
    assert FirstAnsweredAt(ms, p, g, i);
  }

  lemma {:induction false} StartedBehind(ms: seq<Message>, n: nat)
    requires 0 < n <= |ms| && !ms[0].Result?
    ensures Started(ms, n)
  {
    if n > 1 {
      StartedBehind(ms, n - 1);
    }
  }

  /** A well-formed payload has no defect. */
  lemma {:induction false} WellFormedIsSpotless(ms: seq<Message>)
    requires WellFormed(ms)
    ensures Spotless(ms)
  {
    forall q: nat | q < |ms|
      ensures ResultDefect(ms, q) == {}
    {
      WellFormedResults(ms, q);
    }
    forall q: nat | q < |ms|
      ensures PlaceDefect(ms, q) == {}
    {
      if ms[q].Assistant? {
        WellFormedGroup(ms, q);
      }
    }
  }

  lemma {:induction false} WellFormedHasNoEarlyResult(ms: seq<Message>)
    requires WellFormed(ms)
    ensures NoEarlyResult(ms)
  {
    forall p: nat, i: nat, q: nat | AnswersCall(ms, p, i, q) && CallAt(ms, p, i).id.Some?
      ensures p <= q
    {
      OnlyAnswer(ms, p, i, q);
    }
  }

  /** The first result for an announced id has text, when pass 2 finds nothing there. */
  lemma {:induction false} FirstAnswerText(ms: seq<Message>, q: nat, id: string)
    requires AnswerAt(ms, |ms|, id) == Some(q) && id in Taken(ms, |ms|)
    requires ResultDefect(ms, q) == {}
    ensures Answers(ms[q], id) && ms[q].content.Words?
  {
    AnswerAtFirst(ms, |ms|, id);
    AnswerAtFirst(ms, q, id);
  }

  lemma {:induction false} SpotlessInPlace(ms: seq<Message>, p: nat, i: nat)
    requires Spotless(ms) && NoEarlyResult(ms) && CallIn(ms, p, i)
    ensures CallAt(ms, p, i).id.Some? && AnswerAt(ms, |ms|, CallAt(ms, p, i).id.value) == Some(p + 1 + i)
    ensures AnsweredInPlace(ms, p, i)
  {
    assert AcceptedGroup(ms, p) by {
      assert PlaceDefect(ms, p) == {};
      PlaceWithoutDefects(ms, p);
    }
    GroupInPlace(ms, p, i);
    assert AnsweredInPlace(ms, p, i) by {
      TakenAll(ms, p, i);
      assert ResultDefect(ms, p + 1 + i) == {};
      FirstAnswerText(ms, p + 1 + i, CallAt(ms, p, i).id.value);
    }
  }

  lemma {:induction false} SpotlessResult(ms: seq<Message>, q: nat)
    requires Spotless(ms) && NoEarlyResult(ms) && q < |ms| && ms[q].Result?
    ensures InGroup(ms, q)
  {
    assert ResultDefect(ms, q) == {};
    var id := ms[q].callId.value;
    var p, i := TakenAnnounced(ms, |ms|, id);
    SpotlessInPlace(ms, p, i);
    AnswerAtFirst(ms, |ms|, id);
    AnswerAtFirst(ms, q, id);
    assert Answers(ms[q], id);
  }

  lemma {:induction false} NotAtTheFront(ms: seq<Message>)
    requires Spotless(ms) && NoEarlyResult(ms) && ms != []
    ensures !ms[0].Result?
  {
    if ms[0].Result? {
      SpotlessResult(ms, 0);
    }
  }

  lemma {:induction false} SpotlessIsWellFormed(ms: seq<Message>)
    requires Spotless(ms) && NoEarlyResult(ms)
    ensures WellFormed(ms)
  {
    forall p: nat, i: nat | CallIn(ms, p, i)
      ensures AnsweredInPlace(ms, p, i)
    {
      SpotlessInPlace(ms, p, i);
    }
    forall q: nat | q < |ms| && ms[q].Result?
      ensures InGroup(ms, q)
    {
      SpotlessResult(ms, q);
    }
    forall q: nat | 0 < q < |ms|
      ensures !ms[q].System?
    {
      if ms[q].System? {
        assert PlaceDefect(ms, q) == {};
        NotAtTheFront(ms);
        StartedBehind(ms, q);
      }
    }
  }

  /** The validator accepts a payload unchanged exactly when it is well-formed, provided no
      result stands before its announcement. */
  lemma {:induction false} AcceptedIffWellFormed(ms: seq<Message>)
    ensures WellFormed(ms) <==> Validate(ms) == Verdict(ms, {}, true) && NoEarlyResult(ms)
  {
    NoDefectsIffSpotless(ms);
    if WellFormed(ms) {
      WellFormedIsSpotless(ms);
      WellFormedHasNoEarlyResult(ms);
    }
    if Spotless(ms) && NoEarlyResult(ms) {
      SpotlessIsWellFormed(ms);
    }
  }

  /** A result standing before its announcement. */
  function EarlyPayload(c: Call, text: string): seq<Message> {
    [Result(c.id, "tool", Words(text)), Assistant(Nothing, [c])]
  }

  lemma {:induction false} EarlyAnswer(c: Call, text: string)
    requires Good(c)
    ensures UniqueCalls(EarlyPayload(c, text)) && KeptAt(EarlyPayload(c, text), 1) == [Canonical(c)]
    ensures c.id.value in Taken(EarlyPayload(c, text), 2)
    ensures AnswerAt(EarlyPayload(c, text), 2, c.id.value) == Some(0)
  {
    var ms := EarlyPayload(c, text);
    assert CallIn(ms, 1, 0) && CallAt(ms, 1, 0) == c;
    UniqueKept(ms, 1);
    assert Canonicals([c], 1) == [Canonical(c)];
    TakenAll(ms, 1, 0);
    assert AnswerAt(ms, 1, c.id.value) == Some(0);
  }

  /** The proviso is needed: such a payload is accepted as it is. */
  lemma {:induction false} EarlyResultIsAccepted(c: Call, text: string)
    requires Good(c)
    ensures Validate(EarlyPayload(c, text)) == Verdict(EarlyPayload(c, text), {}, true)
    ensures !WellFormed(EarlyPayload(c, text))
  {
    var ms, kept := EarlyPayload(c, text), [Canonical(c)];
    EarlyAnswer(c, text);
    assert PlaceDefect(ms, 1) == {} by {
      assert !Unanswered(ms, kept, 0) && !Unanswered(ms, kept, 1);
      assert GroupPositions(ms, kept, 0) == [] && GroupPositions(ms, kept, 1) == [0];
      assert !GroupSplit(1, [0]);
    }
    assert PlaceDefect(ms, 0) == {} && ResultDefect(ms, 0) == {} && ResultDefect(ms, 1) == {};
    NoDefectsIffSpotless(ms);
    assert !InGroup(ms, 0);
  }

  // Repair

  /** Id is announced somewhere in the payload. */
  ghost predicate Announces(ms: seq<Message>, id: string) {
    exists p: nat, i: nat {:trigger CallAt(ms, p, i)} :: CallIn(ms, p, i) && CallAt(ms, p, i).id == Some(id)
  }

  lemma {:induction false} InFirst(a: seq<Message>, b: seq<Message>, p: nat, i: nat)
    requires CallIn(a, p, i)
    ensures CallIn(a + b, p, i) && CallAt(a + b, p, i) == CallAt(a, p, i)
    ensures AnsweredInPlace(a, p, i) ==> AnsweredInPlace(a + b, p, i)
  {}

  lemma {:induction false} InSecond(a: seq<Message>, b: seq<Message>, p: nat, i: nat)
    requires CallIn(b, p, i)
    ensures CallIn(a + b, |a| + p, i) && CallAt(a + b, |a| + p, i) == CallAt(b, p, i)
    ensures AnsweredInPlace(b, p, i) ==> AnsweredInPlace(a + b, |a| + p, i)
  {
    if AnsweredInPlace(b, p, i) {
      assert (a + b)[|a| + p + 1 + i] == b[p + 1 + i];
    }
  }

  lemma {:induction false} InEither(a: seq<Message>, b: seq<Message>, p: nat, i: nat)
    requires CallIn(a + b, p, i)
    ensures p < |a| ==> CallIn(a, p, i) && CallAt(a + b, p, i) == CallAt(a, p, i)
    ensures |a| <= p ==> CallIn(b, p - |a|, i) && CallAt(a + b, p, i) == CallAt(b, p - |a|, i)
  {}

  lemma {:induction false} UniqueConcat(a: seq<Message>, b: seq<Message>)
    requires UniqueCalls(a) && UniqueCalls(b)
    requires forall id :: !(Announces(a, id) && Announces(b, id))
    ensures UniqueCalls(a + b)
  {
    var m := a + b;
    forall p: nat, i: nat | CallIn(m, p, i)
      ensures Good(CallAt(m, p, i))
    {
      InEither(a, b, p, i);
    }
    forall p: nat, i: nat, q: nat, j: nat | SameId(m, p, i, q, j)
      ensures p == q && i == j
    {
      InEither(a, b, p, i);
      InEither(a, b, q, j);
      var id := CallAt(m, p, i).id.value;
      if p < |a| && q < |a| {
        assert SameId(a, p, i, q, j);
      } else if |a| <= p && |a| <= q {
        assert SameId(b, p - |a|, i, q - |a|, j);
      } else if p < |a| {
        assert Announces(a, id) && Announces(b, id);
      } else {
        assert Announces(a, id) && Announces(b, id);
      }
    }
  }

  /** Well-formed payloads with different ids, the second without a system message unless
      it comes first, concatenate to a well-formed payload. */
  lemma {:induction false} WellFormedConcat(a: seq<Message>, b: seq<Message>)
    requires WellFormed(a) && WellFormed(b)
    requires forall id :: !(Announces(a, id) && Announces(b, id))
    requires a == [] || b == [] || !b[0].System?
    ensures WellFormed(a + b)
  {
    var m := a + b;
    UniqueConcat(a, b);
    forall p: nat, i: nat | CallIn(m, p, i)
      ensures AnsweredInPlace(m, p, i)
    {
      InEither(a, b, p, i);
      if p < |a| {
        assert AnsweredInPlace(a, p, i);
        InFirst(a, b, p, i);
      } else {
        assert AnsweredInPlace(b, p - |a|, i);
        InSecond(a, b, p - |a|, i);
      }
    }
    forall q: nat | q < |m| && m[q].Result?
      ensures InGroup(m, q)
    {
      if q < |a| {
        assert InGroup(a, q);
        var p: nat, i: nat :| CallIn(a, p, i) && q == p + 1 + i;
        InFirst(a, b, p, i);
      } else {
        assert InGroup(b, q - |a|);
        var p: nat, i: nat :| CallIn(b, p, i) && q - |a| == p + 1 + i;
        InSecond(a, b, p, i);
        assert q == |a| + p + 1 + i;
      }
    }
  }

  /** A single message without calls that is not a result is a payload of its own. */
  lemma {:induction false} SingleMessage(m: Message)
    requires CallsOf(m) == [] && !m.Result?
    ensures WellFormed([m])
    ensures forall id :: !Announces([m], id)
  {}

  /** The i-th of a list of results answers the i-th call with text. */
  predicate Fitting(calls: seq<Call>, rs: seq<Message>, i: nat)
    requires i < |calls| && i < |rs|
  {
    rs[i].Result? && rs[i].callId == calls[i].id && rs[i].content.Words?
  }

  lemma {:induction false} GroupCalls(h: Message, rs: seq<Message>, m: seq<Message>, p: nat, i: nat)
    requires h.Assistant? && |rs| == |h.calls| && m == [h] + rs && CallIn(m, p, i)
    requires forall i: nat {:trigger Fitting(h.calls, rs, i)} :: i < |rs| ==> Fitting(h.calls, rs, i)
    requires forall q: nat :: 0 < q < |m| ==> m[q].Result?
    ensures p == 0 && CallAt(m, p, i) == h.calls[i] && AnsweredInPlace(m, p, i)
  {
    assert m[1 + i] == rs[i] && Fitting(h.calls, rs, i);
  }

  /** A header followed by the answers of its calls is a payload of its own. */
  lemma {:induction false} GroupIsWellFormed(h: Message, rs: seq<Message>, seen: set<string>, taken: set<string>)
    requires h.Assistant? && |rs| == |h.calls|
    requires Survivors(h.calls, seen, taken)
    requires forall i: nat {:trigger Fitting(h.calls, rs, i)} :: i < |rs| ==> Fitting(h.calls, rs, i)
    ensures WellFormed([h] + rs)
    ensures forall id :: Announces([h] + rs, id) ==> id !in seen && id in taken
  {
    var m := [h] + rs;
    forall q: nat | 0 < q < |m|
      ensures m[q].Result? && InGroup(m, q)
    {
      assert m[q] == rs[q - 1] && Fitting(h.calls, rs, q - 1);
      assert CallIn(m, 0, q - 1);
    }
    forall p: nat, i: nat | CallIn(m, p, i)
      ensures p == 0 && CallAt(m, p, i) == h.calls[i] && Survivor(h.calls[i], seen, taken) && AnsweredInPlace(m, p, i)
    {
      GroupCalls(h, rs, m, p, i);
    }
  }

  lemma {:induction false} AnswersForAt(ms: seq<Message>, kept: seq<Call>, n: nat)
    requires n <= |kept|
    ensures |AnswersFor(ms, kept, n)| == n
    ensures forall i {:trigger AnswersFor(ms, kept, n)[i]} :: 0 <= i < n ==>
      AnswersFor(ms, kept, n)[i] == AnswerFor(ms, kept[i])
  {
    if n > 0 {
      AnswersForAt(ms, kept, n - 1);
    }
  }

  lemma {:induction false} AnswerForCall(ms: seq<Message>, c: Call)
    requires Named(c.id)
    ensures AnswerFor(ms, c).Result? && AnswerFor(ms, c).callId == c.id && AnswerFor(ms, c).content.Words?
  {}

  /** What a piece adds to the list. */
  function Addition(piece: Piece, started: bool): seq<Message> {
    match piece
    case Gone => []
    case Alone(m) => [if m.System? && started then SystemNote(m) else m]
    case Group(h, rs) => [h] + rs
  }

  /** Every addition is a payload of its own, announcing only ids new at its position. */
  ghost predicate GoodAddition(b: seq<Message>, started: bool, seen: set<string>, taken: set<string>) {
    && WellFormed(b)
    && (started && b != [] ==> !b[0].System?)
    && (forall id :: Announces(b, id) ==> id !in seen && id in taken)
  }

  lemma {:induction false} GroupPieceIsGood(ms: seq<Message>, p: nat, started: bool)
    requires p < |ms| && ms[p].Assistant? && ms[p].calls != []
    ensures GoodAddition(Addition(PieceAt(ms, p), started), started, Taken(ms, p), Taken(ms, p + 1))
  {
    var kept := KeptAt(ms, p);
    var h, rs := Header(ms[p], kept), AnswersFor(ms, kept, |kept|);
    KeptShape(ms[p].calls, Taken(ms, p), |ms[p].calls|);
    assert h.Assistant? && h.calls == kept;
    AnswersForAt(ms, kept, |kept|);
    forall i: nat | i < |rs|
      ensures Fitting(kept, rs, i)
    {
      assert Survivor(kept[i], Taken(ms, p), TakenBy(ms[p].calls, Taken(ms, p), |ms[p].calls|));
      AnswerForCall(ms, kept[i]);
    }
    GroupIsWellFormed(h, rs, Taken(ms, p), Taken(ms, p + 1));
  }

  lemma {:induction false} PieceIsGood(ms: seq<Message>, p: nat, started: bool)
    requires p < |ms|
    ensures GoodAddition(Addition(PieceAt(ms, p), started), started, Taken(ms, p), Taken(ms, p + 1))
  {
    var b, m := Addition(PieceAt(ms, p), started), ms[p];
    if m.Assistant? && m.calls != [] {
      GroupPieceIsGood(ms, p, started);
    } else if b != [] {
      SingleMessage(b[0]);
      assert b == [b[0]];
    }
  }

  lemma {:induction false} AnnouncesConcat(a: seq<Message>, b: seq<Message>, id: string)
    requires Announces(a + b, id)
    ensures Announces(a, id) || Announces(b, id)
  {
    var p: nat, i: nat :| CallIn(a + b, p, i) && CallAt(a + b, p, i).id == Some(id);
    InEither(a, b, p, i);
    if p < |a| {
      assert CallAt(a, p, i).id == Some(id);
    } else {
      assert CallAt(b, p - |a|, i).id == Some(id);
    }
  }

  /** The ids announced in a payload all lie in a set. */
  ghost predicate AnnouncesWithin(ms: seq<Message>, ids: set<string>) {
    forall id :: Announces(ms, id) ==> id in ids
  }

  lemma {:induction false} AddGood(r: seq<Message>, b: seq<Message>, ids: set<string>, more: set<string>)
    requires WellFormed(r) && AnnouncesWithin(r, ids) && ids <= more
    requires GoodAddition(b, r != [], ids, more)
    ensures WellFormed(r + b) && AnnouncesWithin(r + b, more)
  {
    WellFormedConcat(r, b);
    forall id | Announces(r + b, id)
      ensures id in more
    {
      AnnouncesConcat(r, b, id);
    }
  }

  lemma {:induction false} PlaceGood(r: seq<Message>, piece: Piece, ids: set<string>, more: set<string>)
    requires WellFormed(r) && AnnouncesWithin(r, ids) && ids <= more
    requires GoodAddition(Addition(piece, r != []), r != [], ids, more)
    ensures WellFormed(Place(r, piece)) && AnnouncesWithin(Place(r, piece), more)
  {
    AddGood(r, Addition(piece, r != []), ids, more);
    assert Place(r, piece) == r + Addition(piece, r != []);
  }

  /** The id sets before and after position p fit the piece there. */
  ghost predicate Fits(pieces: seq<Piece>, taken: nat -> set<string>, p: nat, started: bool)
    requires p < |pieces|
  {
    && taken(p) <= taken(p + 1)
    && GoodAddition(Addition(pieces[p], started), started, taken(p), taken(p + 1))
  }

  ghost predicate GoodPieces(pieces: seq<Piece>, taken: nat -> set<string>) {
    forall p: nat, started: bool {:trigger Fits(pieces, taken, p, started)} :: p < |pieces| ==>
      Fits(pieces, taken, p, started)
  }

  lemma {:induction false} RebuiltIsWellFormed(pieces: seq<Piece>, taken: nat -> set<string>, n: nat)
    requires n <= |pieces| && GoodPieces(pieces, taken)
    ensures WellFormed(Rebuilt(pieces, n)) && AnnouncesWithin(Rebuilt(pieces, n), taken(n))
  {
    if n == 0 {
      assert Rebuilt(pieces, n) == [];
    } else {
      var r := Rebuilt(pieces, n - 1);
      RebuiltIsWellFormed(pieces, taken, n - 1);
      assert Fits(pieces, taken, n - 1, r != []);
      PlaceGood(r, pieces[n - 1], taken(n - 1), taken(n));
    }
  }

  function TakenUpTo(ms: seq<Message>): nat -> set<string> {
    (n: nat) => if n <= |ms| then Taken(ms, n) else {}
  }

  lemma {:induction false} PieceFits(ms: seq<Message>, p: nat, started: bool)
    requires p < |ms|
    ensures Fits(Pieces(ms), TakenUpTo(ms), p, started)
  {
    TakenGrows(ms, p, p + 1);
    PieceIsGood(ms, p, started);
  }

  lemma {:induction false} PiecesFit(ms: seq<Message>)
    ensures GoodPieces(Pieces(ms), TakenUpTo(ms))
  {
    forall p: nat, started: bool | p < |ms|
      ensures Fits(Pieces(ms), TakenUpTo(ms), p, started)
    {
      PieceFits(ms, p, started);
    }
  }

  lemma {:induction false} RepairedIsWellFormed(ms: seq<Message>)
    ensures WellFormed(Repaired(ms))
  {
    var r := Repaired(ms);
    assert r == Rebuilt(Pieces(ms), |ms|);
    assert WellFormed(r) by {
      PiecesFit(ms);
      RebuiltIsWellFormed(Pieces(ms), TakenUpTo(ms), |ms|);
    }
  }

  /** Whatever payload has a defect, its repair is well-formed and has none. */
  lemma {:induction false} RepairIsWellFormed(ms: seq<Message>)
    requires !Validate(ms).ok
    ensures WellFormed(Validate(ms).messages)
    ensures Validate(Validate(ms).messages) == Verdict(Validate(ms).messages, {}, true)
  {
    RepairedIsWellFormed(ms);
    AcceptedIffWellFormed(Repaired(ms));
  }

  /** Validating twice is validating once. */
  lemma {:induction false} ValidateIdempotent(ms: seq<Message>)
    ensures Validate(Validate(ms).messages) == Verdict(Validate(ms).messages, {}, true)
  {
    if !Validate(ms).ok {
      RepairIsWellFormed(ms);
    }
  }

  /** Without early results every output is well-formed, repaired or not. */
  lemma {:induction false} ValidatedIsWellFormed(ms: seq<Message>)
    requires NoEarlyResult(ms)
    ensures WellFormed(Validate(ms).messages)
  {
    if Validate(ms).ok {
      AcceptedIffWellFormed(ms);
    } else {
      RepairIsWellFormed(ms);
    }
  }

  /** What the validator returns is well-formed exactly when it found a defect or the
      input has no early result. */
  lemma {:induction false} OutputWellFormedIff(ms: seq<Message>)
    ensures WellFormed(Validate(ms).messages) <==> !Validate(ms).ok || NoEarlyResult(ms)
  {
    if Validate(ms).ok {
      AcceptedIffWellFormed(ms);
    } else {
      RepairIsWellFormed(ms);
    }
  }
}
