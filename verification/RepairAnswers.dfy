/** What each defect the validator names says about a payload, and what its repair writes. */
module RepairAnswers {
  import opened Text
  import opened ChatPayload
  import opened WellFormedPayload
  import opened RepairConservation

  /** The i-th call at p has this defect: no id; an id asked for before; no tool name; or
      arguments that are no string. */
  ghost predicate CallIs(ms: seq<Message>, p: nat, i: nat, d: Defect) {
    CallIn(ms, p, i) &&
    var c := CallAt(ms, p, i);
    match d
    case ToolCallIdMissing => !Named(c.id)
    case ToolCallIdDuplicate => Named(c.id) && AskedBefore(ms, p, i, c.id.value)
    case ToolNameMissing => Named(c.id) && !AskedBefore(ms, p, i, c.id.value) && !Named(c.name)
    case ToolArgumentsNotString => FirstAsk(ms, p, i) && c.arguments.Object?
    case _ => false
  }

  ghost predicate CallsHave(ms: seq<Message>, p: nat, d: Defect) {
    exists i: nat {:trigger CallIs(ms, p, i, d)} :: CallIs(ms, p, i, d)
  }

  /** Some named call asks for what the result at q answers. */
  ghost predicate Wanted(ms: seq<Message>, q: nat)
    requires q < |ms| && ms[q].Result?
  {
    Named(ms[q].callId) && Asks(ms, ms[q].callId.value)
  }

  /** The result at q has this defect: nobody asked; an earlier one has its id; or no text. */
  ghost predicate ResultIs(ms: seq<Message>, q: nat, d: Defect) {
    q < |ms| && ms[q].Result? &&
    match d
    case ToolResultOrphan => !Wanted(ms, q)
    case ToolResultDuplicate => Wanted(ms, q) && !FirstFor(ms, q, ms[q].callId.value)
    case ToolContentMissing => Wanted(ms, q) && FirstFor(ms, q, ms[q].callId.value) && !ms[q].content.Words?
    case _ => false
  }

  /** The message at k keeps a place of its own. */
  ghost predicate Stays(ms: seq<Message>, k: nat)
    requires k < |ms|
  {
    ms[k].Result? ==> !Wanted(ms, k)
  }

  /** The first result for the i-th call at p, which is the first to ask for it, stands at a. */
  ghost predicate FirstAnswer(ms: seq<Message>, p: nat, i: nat, a: nat) {
    FirstAsk(ms, p, i) && FirstFor(ms, a, CallAt(ms, p, i).id.value)
  }

  /** Two calls at p are answered in the wrong order. */
  ghost predicate Crossed(ms: seq<Message>, p: nat, n: nat) {
    exists i: nat, j: nat, a: nat, b: nat {:trigger FirstAnswer(ms, p, i, a), FirstAnswer(ms, p, j, b)} ::
      i < j < n && a > b && FirstAnswer(ms, p, i, a) && FirstAnswer(ms, p, j, b)
  }

  ghost predicate AnswersSome(ms: seq<Message>, p: nat, n: nat, a: nat) {
    exists i: nat {:trigger FirstAnswer(ms, p, i, a)} :: i < n && FirstAnswer(ms, p, i, a)
  }

  /** Between the calls at p and one of their first results stands something else. */
  ghost predicate Interrupted(ms: seq<Message>, p: nat, n: nat) {
    exists a: nat, q: nat {:trigger AnswersSome(ms, p, n, a), AnswersSome(ms, p, n, q)} ::
      p < q < a && AnswersSome(ms, p, n, a) && !AnswersSome(ms, p, n, q)
  }

  /** A call that is the first to ask is not answered at all. */
  ghost predicate Open(ms: seq<Message>, p: nat, i: nat) {
    FirstAsk(ms, p, i) && forall q: nat :: q < |ms| ==> !Answers(ms[q], CallAt(ms, p, i).id.value)
  }

  /** The message at q has this defect: a system message behind one that stays; or an
      announcement whose results are out of place, or missing. */
  ghost predicate PlaceIs(ms: seq<Message>, q: nat, d: Defect) {
    q < |ms| &&
    match d
    case SystemPosition => ms[q].System? && exists k: nat {:trigger Stays(ms, k)} :: k < q && Stays(ms, k)
    case ToolGroupSplit => Crossed(ms, q, |CallsOf(ms[q])|) || Interrupted(ms, q, |CallsOf(ms[q])|)
    case ToolCallUnanswered => exists i: nat {:trigger Open(ms, q, i)} :: Open(ms, q, i)
    case _ => false
  }

  ghost predicate Has(ms: seq<Message>, d: Defect) {
    || (exists p: nat {:trigger CallsHave(ms, p, d)} :: CallsHave(ms, p, d))
    || (exists q: nat {:trigger ResultIs(ms, q, d)} :: ResultIs(ms, q, d))
    || (exists q: nat {:trigger PlaceIs(ms, q, d)} :: PlaceIs(ms, q, d))
  }

  // Gathering

  ghost predicate FoundAt(found: nat -> set<Defect>, n: nat, d: Defect) {
    exists p: nat {:trigger found(p)} :: p < n && d in found(p)
  }

  lemma {:induction false} GatherIff(found: nat -> set<Defect>, n: nat, d: Defect)
    ensures d in Gather(found, n) <==> FoundAt(found, n, d)
  {
    if n > 0 {
      GatherIff(found, n - 1, d);
      if d in found(n - 1) {
        assert FoundAt(found, n, d);
      }
    }
  }

  // Announcements

  lemma {:induction false} CallDefectIff(ms: seq<Message>, p: nat, i: nat, d: Defect)
    requires CallIn(ms, p, i)
    ensures d in CallDefect(CallAt(ms, p, i), TakenBy(CallsOf(ms[p]), Taken(ms, p), i)) <==> CallIs(ms, p, i, d)
  {
    var c := CallAt(ms, p, i);
    if Named(c.id) {
      TakenByIff(ms, p, i, c.id.value);
    }
  }

  lemma {:induction false} AnnouncementIff(ms: seq<Message>, p: nat, d: Defect)
    requires p < |ms|
    ensures d in AnnouncementDefect(ms, p) <==> CallsHave(ms, p, d)
  {
    var calls := CallsOf(ms[p]);
    var found := CallDefects(calls, Taken(ms, p));
    GatherIff(found, |calls|, d);
    forall i: nat | i < |calls|
      ensures d in found(i) <==> CallIs(ms, p, i, d)
    {
      CallDefectIff(ms, p, i, d);
    }
  }

  lemma {:induction false} AnnouncementsIff(ms: seq<Message>, d: Defect)
    ensures d in Gather(AnnouncementDefects(ms), |ms|) <==> exists p: nat :: CallsHave(ms, p, d)
  {
    var found := AnnouncementDefects(ms);
    GatherIff(found, |ms|, d);
    forall p: nat | p < |ms|
      ensures d in found(p) <==> CallsHave(ms, p, d)
    {
      AnnouncementIff(ms, p, d);
    }
  }

  // Results

  lemma {:induction false} OrphanIff(ms: seq<Message>, q: nat)
    requires q < |ms| && ms[q].Result?
    ensures Orphan(ms[q], Taken(ms, |ms|)) <==> !Wanted(ms, q)
  {
    if ms[q].callId.Some? {
      TakenIffAsked(ms, ms[q].callId.value);
    }
  }

  lemma {:induction false} FirstIff(ms: seq<Message>, q: nat, id: string)
    requires q < |ms| && Answers(ms[q], id)
    ensures AnswerAt(ms, q, id).None? <==> FirstFor(ms, q, id)
  {
    AnswerAtFirst(ms, q, id);
  }

  lemma {:induction false} ResultDefectIff(ms: seq<Message>, q: nat, d: Defect)
    requires q < |ms|
    ensures d in ResultDefect(ms, q) <==> ResultIs(ms, q, d)
  {
    if ms[q].Result? {
      OrphanIff(ms, q);
      if Wanted(ms, q) {
        FirstIff(ms, q, ms[q].callId.value);
      }
    }
  }

  lemma {:induction false} ResultsIff(ms: seq<Message>, d: Defect)
    ensures d in Gather(ResultDefects(ms), |ms|) <==> exists q: nat :: ResultIs(ms, q, d)
  {
    var found := ResultDefects(ms);
    GatherIff(found, |ms|, d);
    forall q: nat | q < |ms|
      ensures d in found(q) <==> ResultIs(ms, q, d)
    {
      ResultDefectIff(ms, q, d);
    }
  }

  // Places

  lemma {:induction false} StartedIffStays(ms: seq<Message>, n: nat)
    requires n <= |ms|
    ensures Started(ms, n) <==> exists k: nat {:trigger Stays(ms, k)} :: k < n && Stays(ms, k)
  {
    if n > 0 {
      StartedIffStays(ms, n - 1);
      if ms[n - 1].Result? {
        OrphanIff(ms, n - 1);
      }
      if Stays(ms, n - 1) {
        assert Started(ms, n);
      }
    }
  }

  lemma {:induction false} AnswerAtIff(ms: seq<Message>, id: string, a: nat)
    ensures AnswerAt(ms, |ms|, id) == Some(a) <==> FirstFor(ms, a, id)
  {
    AnswerAtFirst(ms, |ms|, id);
  }

  lemma {:induction false} PositionsPrefix(ms: seq<Message>, kept: seq<Call>, c: Call, n: nat)
    requires n <= |kept|
    ensures GroupPositions(ms, kept + [c], n) == GroupPositions(ms, kept, n)
    ensures Unanswered(ms, kept + [c], n) <==> Unanswered(ms, kept, n)
  {
    if n > 0 {
      PositionsPrefix(ms, kept, c, n - 1);
    }
  }

  /** The first results of the first n calls at p, in call order. */
  ghost function Firsts(ms: seq<Message>, p: nat, n: nat): seq<nat>
    requires p < |ms| && n <= |CallsOf(ms[p])|
  {
    var kept := FirstAsks(ms, p, n);
    GroupPositions(ms, kept, |kept|)
  }

  ghost predicate Opens(ms: seq<Message>, p: nat, n: nat)
    requires p < |ms| && n <= |CallsOf(ms[p])|
  {
    var kept := FirstAsks(ms, p, n);
    Unanswered(ms, kept, |kept|)
  }

  lemma {:induction false} NextFirst(ms: seq<Message>, p: nat, n: nat)
    requires p < |ms| && n < |CallsOf(ms[p])|
    ensures !FirstAsk(ms, p, n) ==> Firsts(ms, p, n + 1) == Firsts(ms, p, n)
    ensures !FirstAsk(ms, p, n) ==> (Opens(ms, p, n + 1) <==> Opens(ms, p, n))
    ensures FirstAsk(ms, p, n) ==>
      var a := AnswerAt(ms, |ms|, CallAt(ms, p, n).id.value);
      && Firsts(ms, p, n + 1) == Firsts(ms, p, n) + (if a.Some? then [a.value] else [])
      && (Opens(ms, p, n + 1) <==> Opens(ms, p, n) || a.None?)
  {
    var kept := FirstAsks(ms, p, n);
    if FirstAsk(ms, p, n) {
      PositionsPrefix(ms, kept, Canonical(CallAt(ms, p, n)), |kept|);
    }
  }

  /** Some position in the list is behind b. */
  ghost predicate SomeBeyond(g: seq<nat>, b: nat) {
    exists k: nat :: k < |g| && g[k] > b
  }

  lemma {:induction false} SortedMore(g: seq<nat>, b: nat)
    ensures Sorted(g + [b]) <==> Sorted(g) && !SomeBeyond(g, b)
  {
    var m := g + [b];
    assert m[|g|] == b && forall k :: 0 <= k < |g| ==> m[k] == g[k];
  }

  lemma {:induction false} SomeMore(ms: seq<Message>, p: nat, n: nat, a: nat)
    ensures AnswersSome(ms, p, n + 1, a) <==> AnswersSome(ms, p, n, a) || FirstAnswer(ms, p, n, a)
  {}

  lemma {:induction false} FirstsAre(ms: seq<Message>, p: nat, n: nat, a: nat)
    requires p < |ms| && n <= |CallsOf(ms[p])|
    ensures a in Firsts(ms, p, n) <==> AnswersSome(ms, p, n, a)
  {
    if n > 0 {
      FirstsAre(ms, p, n - 1, a);
      NextFirst(ms, p, n - 1);
      SomeMore(ms, p, n - 1, a);
      if FirstAsk(ms, p, n - 1) {
        AnswerAtIff(ms, CallAt(ms, p, n - 1).id.value, a);
      }
    }
  }

  lemma {:induction false} OneFirst(ms: seq<Message>, p: nat, i: nat, a: nat, b: nat)
    requires FirstAnswer(ms, p, i, a) && FirstAnswer(ms, p, i, b)
    ensures a == b
  {}

  lemma {:induction false} CrossedMore(ms: seq<Message>, p: nat, n: nat, b: nat)
    requires p < |ms| && n < |CallsOf(ms[p])| && FirstAnswer(ms, p, n, b)
    ensures Crossed(ms, p, n + 1) <==> Crossed(ms, p, n) || SomeBeyond(Firsts(ms, p, n), b)
  {
    var g := Firsts(ms, p, n);
    if SomeBeyond(g, b) {
      var k: nat :| k < |g| && g[k] > b;
      FirstsAre(ms, p, n, g[k]);
      var i: nat :| i < n && FirstAnswer(ms, p, i, g[k]);
      assert Crossed(ms, p, n + 1);
    }
    if Crossed(ms, p, n + 1) && !Crossed(ms, p, n) {
      var i: nat, j: nat, a: nat, c: nat :|
        i < j < n + 1 && a > c && FirstAnswer(ms, p, i, a) && FirstAnswer(ms, p, j, c);
      OneFirst(ms, p, n, b, c);
      assert AnswersSome(ms, p, n, a);
      FirstsAre(ms, p, n, a);
    }
  }

  lemma {:induction false} CrossedSame(ms: seq<Message>, p: nat, n: nat)
    requires forall b: nat {:trigger FirstAnswer(ms, p, n, b)} :: !FirstAnswer(ms, p, n, b)
    ensures Crossed(ms, p, n + 1) <==> Crossed(ms, p, n)
  {}

  lemma {:induction false} FirstsNext(ms: seq<Message>, p: nat, n: nat) returns (b: Option<nat>)
    requires p < |ms| && n < |CallsOf(ms[p])|
    ensures b.Some? ==> FirstAnswer(ms, p, n, b.value) && Firsts(ms, p, n + 1) == Firsts(ms, p, n) + [b.value]
    ensures b.None? ==> Firsts(ms, p, n + 1) == Firsts(ms, p, n)
    ensures b.None? ==> forall a: nat {:trigger FirstAnswer(ms, p, n, a)} :: !FirstAnswer(ms, p, n, a)
  {
    NextFirst(ms, p, n);
    b := None;
    if FirstAsk(ms, p, n) {
      b := AnswerAt(ms, |ms|, CallAt(ms, p, n).id.value);
    }
    if b.Some? {
      AnswerAtIff(ms, CallAt(ms, p, n).id.value, b.value);
    } else {
      NotAnswered(ms, p, n);
    }
  }

  lemma {:induction false} CrossedNext(ms: seq<Message>, p: nat, n: nat)
    returns (b: Option<nat>, g: seq<nat>, h: seq<nat>)
    requires p < |ms| && n < |CallsOf(ms[p])|
    ensures g == Firsts(ms, p, n) && h == Firsts(ms, p, n + 1)
    ensures h == if b.Some? then g + [b.value] else g
    ensures Crossed(ms, p, n + 1) <==> Crossed(ms, p, n) || (b.Some? && SomeBeyond(g, b.value))
  {
    b := FirstsNext(ms, p, n);
    g, h := Firsts(ms, p, n), Firsts(ms, p, n + 1);
    if b.Some? {
      CrossedMore(ms, p, n, b.value);
    } else {
      CrossedSame(ms, p, n);
    }
  }

  lemma {:induction false} SortedStep(g: seq<nat>, b: Option<nat>, h: seq<nat>, before: bool, after: bool)
    requires h == (if b.Some? then g + [b.value] else g) && (Sorted(g) <==> !before)
    requires after <==> before || (b.Some? && SomeBeyond(g, b.value))
    ensures Sorted(h) <==> !after
  {
    if b.Some? {
      SortedMore(g, b.value);
    }
  }

  lemma {:induction false} SortedNone(ms: seq<Message>, p: nat) returns (g: seq<nat>)
    requires p < |ms|
    ensures g == Firsts(ms, p, 0) && Sorted(g) && !Crossed(ms, p, 0)
  {
    g := Firsts(ms, p, 0);
  }

  lemma {:induction false} SortedFirsts(ms: seq<Message>, p: nat, n: nat) returns (g: seq<nat>, crossed: bool)
    requires p < |ms| && n <= |CallsOf(ms[p])|
    ensures g == Firsts(ms, p, n) && crossed == Crossed(ms, p, n) && (Sorted(g) <==> !crossed)
  {
    if n == 0 {
      g := SortedNone(ms, p);
      crossed := false;
    } else {
      var before, was := SortedFirsts(ms, p, n - 1);
      var b, last;
      b, last, g := CrossedNext(ms, p, n - 1);
      crossed := was || (b.Some? && SomeBeyond(last, b.value));
      SortedStep(last, b, g, was, crossed);
    }
  }

  lemma {:induction false} SortedIff(ms: seq<Message>, p: nat, n: nat)
    requires p < |ms| && n <= |CallsOf(ms[p])|
    ensures Sorted(Firsts(ms, p, n)) <==> !Crossed(ms, p, n)
  {
    var g, crossed := SortedFirsts(ms, p, n);
  }

  lemma {:induction false} NotAnswered(ms: seq<Message>, p: nat, i: nat)
    requires FirstAsk(ms, p, i) ==> AnswerAt(ms, |ms|, CallAt(ms, p, i).id.value).None?
    ensures forall b: nat {:trigger FirstAnswer(ms, p, i, b)} :: !FirstAnswer(ms, p, i, b)
  {
    forall b: nat
      ensures !FirstAnswer(ms, p, i, b)
    {
      if FirstAsk(ms, p, i) {
        AnswerAtIff(ms, CallAt(ms, p, i).id.value, b);
      }
    }
  }

  lemma {:induction false} GappedIff(ms: seq<Message>, p: nat)
    requires p < |ms|
    ensures Gapped(p, Firsts(ms, p, |CallsOf(ms[p])|)) <==> Interrupted(ms, p, |CallsOf(ms[p])|)
  {
    var n := |CallsOf(ms[p])|;
    forall a: nat
      ensures a in Firsts(ms, p, n) <==> AnswersSome(ms, p, n, a)
    {
      FirstsAre(ms, p, n, a);
    }
  }

  lemma {:induction false} OpenIff(ms: seq<Message>, p: nat, i: nat)
    requires FirstAsk(ms, p, i)
    ensures AnswerAt(ms, |ms|, CallAt(ms, p, i).id.value).None? <==> Open(ms, p, i)
  {
    AnswerAtFirst(ms, |ms|, CallAt(ms, p, i).id.value);
  }

  lemma {:induction false} OpensIff(ms: seq<Message>, p: nat, n: nat)
    requires p < |ms| && n <= |CallsOf(ms[p])|
    ensures Opens(ms, p, n) <==> exists i: nat {:trigger Open(ms, p, i)} :: i < n && Open(ms, p, i)
  {
    if n > 0 {
      OpensIff(ms, p, n - 1);
      NextFirst(ms, p, n - 1);
      if FirstAsk(ms, p, n - 1) {
        OpenIff(ms, p, n - 1);
      }
    }
  }

  lemma {:induction false} GroupDefectIff(ms: seq<Message>, p: nat, d: Defect)
    requires p < |ms| && ms[p].Assistant?
    ensures d in GroupDefects(ms, p) <==> PlaceIs(ms, p, d)
  {
    var n := |CallsOf(ms[p])|;
    KeptIsFirst(ms, p, n);
    SortedIff(ms, p, n);
    GappedIff(ms, p);
    OpensIff(ms, p, n);
  }

  lemma {:induction false} NothingThere(ms: seq<Message>, p: nat, d: Defect)
    requires p < |ms| && CallsOf(ms[p]) == []
    ensures PlaceIs(ms, p, d) ==> d.SystemPosition?
  {}

  lemma {:induction false} PlaceDefectIff(ms: seq<Message>, q: nat, d: Defect)
    requires q < |ms|
    ensures d in PlaceDefect(ms, q) <==> PlaceIs(ms, q, d)
  {
    if ms[q].Assistant? && ms[q].calls != [] {
      GroupDefectIff(ms, q, d);
    } else {
      StartedIffStays(ms, q);
      NothingThere(ms, q, d);
    }
  }

  lemma {:induction false} PlacesIff(ms: seq<Message>, d: Defect)
    ensures d in Gather(PlaceDefects(ms), |ms|) <==> exists q: nat :: PlaceIs(ms, q, d)
  {
    var found := PlaceDefects(ms);
    GatherIff(found, |ms|, d);
    forall q: nat | q < |ms|
      ensures d in found(q) <==> PlaceIs(ms, q, d)
    {
      PlaceDefectIff(ms, q, d);
    }
  }

  /** The validator names a defect exactly if the payload has it. */
  lemma {:induction false} NamedIffThere(ms: seq<Message>, d: Defect)
    ensures d in Validate(ms).defects <==> Has(ms, d)
  {
    AnnouncementsIff(ms, d);
    ResultsIff(ms, d);
    PlacesIff(ms, d);
  }

  // What the repair writes

  /** The text of arguments that are a string, or an object in its JSON form. */
  predicate Written(a: Arguments, t: string) {
    match a
    case Plain(text) => t == text
    case Object(json) => t == json
  }

  /** A call as it was, with its arguments written out. */
  predicate SameCall(c: Call, d: Call) {
    d.id == c.id && d.name == c.name && d.arguments.Plain? && Written(c.arguments, d.arguments.text) && !d.extra
  }

  /** The calls kept among the first n at p are those at these places: the first asks, in
      order, each as it was. */
  ghost predicate KeptAre(ms: seq<Message>, p: nat, n: nat, at: seq<nat>)
    requires p < |ms| && n <= |CallsOf(ms[p])|
  {
    && |at| == |FirstAsks(ms, p, n)|
    && (forall k {:trigger at[k]} :: 0 <= k < |at| ==>
          at[k] < n && FirstAsk(ms, p, at[k]) && SameCall(CallsOf(ms[p])[at[k]], FirstAsks(ms, p, n)[k]))
    && (forall j, k {:trigger at[j], at[k]} :: 0 <= j < k < |at| ==> at[j] < at[k])
    && (forall i: nat {:trigger FirstAsk(ms, p, i)} :: i < n && FirstAsk(ms, p, i) ==> i in at)
  }

  /** The calls an announcement keeps are its first asks, in order, each with its own id,
      name and arguments. */
  lemma {:induction false} KeptCallsSay(ms: seq<Message>, p: nat, n: nat) returns (at: seq<nat>)
    requires p < |ms| && n <= |CallsOf(ms[p])|
    ensures KeptAre(ms, p, n, at)
  {
    at := [];
    if n > 0 {
      at := KeptCallsSay(ms, p, n - 1);
      if FirstAsk(ms, p, n - 1) {
        at := OneMoreKept(ms, p, n, at);
      }
    }
  }

  lemma {:induction false} OneMoreKept(ms: seq<Message>, p: nat, n: nat, before: seq<nat>) returns (at: seq<nat>)
    requires p < |ms| && 0 < n <= |CallsOf(ms[p])| && FirstAsk(ms, p, n - 1) && KeptAre(ms, p, n - 1, before)
    ensures KeptAre(ms, p, n, at)
  {
    at := before + [n - 1];
    assert FirstAsks(ms, p, n) == FirstAsks(ms, p, n - 1) + [Canonical(CallAt(ms, p, n - 1))];
    assert SameCall(CallsOf(ms[p])[n - 1], Canonical(CallAt(ms, p, n - 1)));
  }

  predicate EndsWith(s: string, e: string) {
    |e| <= |s| && s[|s| - |e|..] == e
  }

  predicate BeginsWith(s: string, b: string) {
    |b| <= |s| && s[..|b|] == b
  }

  lemma {:induction false} Around(a: string, b: string, c: string)
    ensures BeginsWith(a + b + c, a + b) && EndsWith(a + b + c, c)
  {}

  /** A result nobody asked for becomes a user message that names its tool and keeps its text;
      a late system message becomes one that keeps its text. */
  lemma {:induction false} DemotedSays(m: Message)
    ensures m.Result? ==>
      && Demoted(m).User? && Demoted(m).content.Words?
      && BeginsWith(Demoted(m).content.text, "[도구 실행 결과: " + m.name)
      && EndsWith(Demoted(m).content.text, "]\n" + Shown(m.content))
    ensures m.System? ==>
      SystemNote(m).User? && SystemNote(m).content.Words? && EndsWith(SystemNote(m).content.text, Shown(m.content))
  {
    if m.Result? {
      Around("[도구 실행 결과: ", m.name, "]\n" + Shown(m.content));
      assert "[도구 실행 결과: " + m.name + ("]\n" + Shown(m.content)) == Demoted(m).content.text;
    }
  }

  /** A placed result has its own id and tool name, and its text if it has one; the result of
      a call nobody answered has that of the call. */
  lemma {:induction false} PlacedSays(m: Message, c: Call)
    ensures m.Result? ==>
      Completed(m) == Result(m.callId, m.name, if m.content.Words? then m.content else Words(MISSING_RESULT))
    ensures Named(c.name) ==> Placeholder(c) == Result(c.id, c.name.value, Words(MISSING_RESULT))
  {}
}
