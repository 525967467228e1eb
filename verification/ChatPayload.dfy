/** The pre-send payload validator of bot.py: what a chat payload is, which structural
    defects it can have, and the three-pass repair that removes them. */
module ChatPayload {
  import opened Text

  /** Message content: absent, a string, or another object that prints as `shown`
      ("" for an object Python treats as false). */
  datatype Content = Nothing | Words(text: string) | Structure(shown: string)

  /** Call arguments: a string, or an object whose JSON form is `json`. */
  datatype Arguments = Plain(text: string) | Object(json: string)

  /** One tool call. `extra` marks a call that is not exactly the canonical dictionary. */
  datatype Call = Call(id: Option<string>, name: Option<string>, arguments: Arguments, extra: bool)

  datatype Message =
    | System(content: Content)
    | User(content: Content)
    | Assistant(content: Content, calls: seq<Call>)
    | Result(callId: Option<string>, name: string, content: Content)
    | Other(role: string, content: Content)

  datatype Defect =
    | ToolCallIdMissing | ToolCallIdDuplicate | ToolNameMissing | ToolArgumentsNotString
    | ToolResultOrphan | ToolResultDuplicate | ToolContentMissing
    | SystemPosition | ToolGroupSplit | ToolCallUnanswered

  datatype Verdict = Verdict(messages: seq<Message>, defects: set<Defect>, ok: bool)

  const MISSING_RESULT := "[Error: 도구 결과가 기록되지 않았습니다]"

  function Shown(c: Content): string {
    match c
    case Nothing => ""
    case Words(t) => t
    case Structure(t) => t
  }

  /** The defects found at places 0 .. n - 1. */
  function Gather(found: nat -> set<Defect>, n: nat): set<Defect> {
    if n == 0 then {} else Gather(found, n - 1) + found(n - 1)
  }

  // Pass 1: announcements

  predicate Named(o: Option<string>) { o.Some? && o.value != "" }

  predicate Accepts(c: Call, taken: set<string>) {
    Named(c.id) && c.id.value !in taken && Named(c.name)
  }

  function Canonical(c: Call): Call {
    Call(c.id, c.name, Plain(match c.arguments case Plain(t) => t case Object(j) => j), false)
  }

  /** The announced ids once the first n calls have been considered. */
  function TakenBy(calls: seq<Call>, seen: set<string>, n: nat): set<string>
    requires n <= |calls|
  {
    if n == 0 then seen
    else
      var t := TakenBy(calls, seen, n - 1);
      if Accepts(calls[n - 1], t) then t + {calls[n - 1].id.value} else t
  }

  /** The calls that survive among the first n, when the ids in `seen` are already announced. */
  function Kept(calls: seq<Call>, seen: set<string>, n: nat): seq<Call>
    requires n <= |calls|
  {
    if n == 0 then []
    else
      var k := Kept(calls, seen, n - 1);
      if Accepts(calls[n - 1], TakenBy(calls, seen, n - 1)) then k + [Canonical(calls[n - 1])] else k
  }

  function CallDefect(c: Call, taken: set<string>): set<Defect> {
    if !Named(c.id) then {ToolCallIdMissing}
    else if c.id.value in taken then {ToolCallIdDuplicate}
    else if !Named(c.name) then {ToolNameMissing}
    else if c.arguments.Object? then {ToolArgumentsNotString}
    else {}
  }

  function CallDefects(calls: seq<Call>, seen: set<string>): nat -> set<Defect> {
    (i: nat) => if i < |calls| then CallDefect(calls[i], TakenBy(calls, seen, i)) else {}
  }

  function CallsOf(m: Message): seq<Call> {
    if m.Assistant? then m.calls else []
  }

  /** Ids announced by the first n messages. */
  function Taken(ms: seq<Message>, n: nat): set<string>
    requires n <= |ms|
  {
    if n == 0 then {}
    else
      var calls := CallsOf(ms[n - 1]);
      TakenBy(calls, Taken(ms, n - 1), |calls|)
  }

  /** The surviving calls of the message at p. */
  function KeptAt(ms: seq<Message>, p: nat): seq<Call>
    requires p < |ms|
  {
    var calls := CallsOf(ms[p]);
    Kept(calls, Taken(ms, p), |calls|)
  }

  /** What announcing the calls at p adds to the defects. */
  function AnnouncementDefect(ms: seq<Message>, p: nat): set<Defect>
    requires p < |ms|
  {
    var calls := CallsOf(ms[p]);
    Gather(CallDefects(calls, Taken(ms, p)), |calls|)
  }

  function AnnouncementDefects(ms: seq<Message>): nat -> set<Defect> {
    (p: nat) => if p < |ms| then AnnouncementDefect(ms, p) else {}
  }

  // Pass 2: results

  predicate Answers(m: Message, id: string) {
    m.Result? && m.callId == Some(id)
  }

  /** Position of the first result for id among the first n messages. */
  function AnswerAt(ms: seq<Message>, n: nat, id: string): (a: Option<nat>)
    requires n <= |ms|
    ensures a.Some? ==> a.value < n && Answers(ms[a.value], id)
  {
    if n == 0 then None
    else
      var a := AnswerAt(ms, n - 1, id);
      if a.Some? then a else if Answers(ms[n - 1], id) then Some(n - 1) else None
  }

  predicate Orphan(m: Message, announced: set<string>) {
    m.Result? && (m.callId.None? || m.callId.value !in announced)
  }

  /** A result nobody asked for keeps its text as a user message. */
  function Demoted(m: Message): Message {
    if !m.Result? then m
    else User(Words("[도구 실행 결과: " + m.name + "]\n" + Shown(m.content)))
  }

  /** A result whose content is not a string is filled with the placeholder. */
  function Completed(m: Message): Message {
    if !m.Result? || m.content.Words? then m else Result(m.callId, m.name, Words(MISSING_RESULT))
  }

  function ResultDefect(ms: seq<Message>, p: nat): set<Defect>
    requires p < |ms|
  {
    if !ms[p].Result? then {}
    else if Orphan(ms[p], Taken(ms, |ms|)) then {ToolResultOrphan}
    else if AnswerAt(ms, p, ms[p].callId.value).Some? then {ToolResultDuplicate}
    else if !ms[p].content.Words? then {ToolContentMissing}
    else {}
  }

  function ResultDefects(ms: seq<Message>): nat -> set<Defect> {
    (q: nat) => if q < |ms| then ResultDefect(ms, q) else {}
  }

  // Pass 3: reassembly

  function Filled(c: Content, default: Content): Content {
    if Shown(c) == "" then default else c
  }

  /** The announcing message once only `kept` of its calls remain. */
  function Header(m: Message, kept: seq<Call>): Message
    requires m.Assistant?
  {
    if kept == m.calls then m
    else if kept != [] then Assistant(Filled(m.content, Nothing), kept)
    else Assistant(Filled(m.content, Words("[도구 실행 지시]")), [])
  }

  function IdOf(c: Call): string { if c.id.Some? then c.id.value else "" }

  function NameOf(c: Call): string { if c.name.Some? then c.name.value else "" }

  /** The placeholder result of a call nobody answered. */
  function Placeholder(c: Call): Message {
    Result(c.id, NameOf(c), Words(MISSING_RESULT))
  }

  /** The result placed behind call c. */
  function AnswerFor(ms: seq<Message>, c: Call): Message {
    match AnswerAt(ms, |ms|, IdOf(c))
    case Some(a) => Completed(ms[a])
    case None => Placeholder(c)
  }

  function AnswersFor(ms: seq<Message>, kept: seq<Call>, n: nat): seq<Message>
    requires n <= |kept|
  {
    if n == 0 then [] else AnswersFor(ms, kept, n - 1) + [AnswerFor(ms, kept[n - 1])]
  }

  /** Positions of the answers of the first n kept calls, in call order. */
  function GroupPositions(ms: seq<Message>, kept: seq<Call>, n: nat): seq<nat>
    requires n <= |kept|
  {
    if n == 0 then []
    else
      match AnswerAt(ms, |ms|, IdOf(kept[n - 1]))
      case Some(a) => GroupPositions(ms, kept, n - 1) + [a]
      case None => GroupPositions(ms, kept, n - 1)
  }

  /** Some of the first n kept calls has no result. */
  predicate Unanswered(ms: seq<Message>, kept: seq<Call>, n: nat)
    requires n <= |kept|
  {
    n > 0 && (Unanswered(ms, kept, n - 1) || AnswerAt(ms, |ms|, IdOf(kept[n - 1])).None?)
  }

  predicate Sorted(g: seq<nat>) {
    forall i, j :: 0 <= i < j < |g| ==> g[i] <= g[j]
  }

  /** Some position between the announcement at p and the last answer is not an answer. */
  predicate Gapped(p: nat, g: seq<nat>) {
    exists a :: a in g && exists q: nat :: p < q < a && q !in g
  }

  predicate GroupSplit(p: nat, g: seq<nat>) {
    !Sorted(g) || Gapped(p, g)
  }

  /** A system message outside position 0 becomes a user message. */
  function SystemNote(m: Message): Message
    requires m.System?
  {
    User(Words("[시스템 참고 정보]: " + Shown(m.content)))
  }

  lemma {:induction false} TakenByGrows(calls: seq<Call>, seen: set<string>, m: nat, n: nat)
    requires m <= n <= |calls|
    ensures TakenBy(calls, seen, m) <= TakenBy(calls, seen, n)
    decreases n
  {
    if m < n {
      TakenByGrows(calls, seen, m, n - 1);
    }
  }

  /** A surviving call is canonical, and its id is new and taken afterwards. */
  ghost predicate Survivor(c: Call, seen: set<string>, taken: set<string>) {
    Named(c.id) && Named(c.name) && c == Canonical(c) && c.id.value !in seen && c.id.value in taken
  }

  lemma {:induction false} KeptSurvives(calls: seq<Call>, seen: set<string>, n: nat, i: nat)
    requires n <= |calls| && i < |Kept(calls, seen, n)|
    ensures Survivor(Kept(calls, seen, n)[i], seen, TakenBy(calls, seen, n))
  {
    var k := Kept(calls, seen, n - 1);
    TakenByGrows(calls, seen, 0, n - 1);
    if i < |k| {
      KeptSurvives(calls, seen, n - 1, i);
      assert Kept(calls, seen, n)[i] == k[i];
    }
  }

  lemma {:induction false} KeptDiffer(calls: seq<Call>, seen: set<string>, n: nat, i: nat, j: nat)
    requires n <= |calls| && i < j < |Kept(calls, seen, n)|
    ensures Kept(calls, seen, n)[i].id != Kept(calls, seen, n)[j].id
  {
    var k := Kept(calls, seen, n - 1);
    assert Kept(calls, seen, n)[i] == k[i];
    if j < |k| {
      KeptDiffer(calls, seen, n - 1, i, j);
    } else {
      KeptSurvives(calls, seen, n - 1, i);
    }
  }

  /** Surviving calls: canonical, new, taken afterwards, pairwise different. */
  ghost predicate Survivors(k: seq<Call>, seen: set<string>, taken: set<string>) {
    && (forall i :: 0 <= i < |k| ==> Survivor(k[i], seen, taken))
    && (forall i, j :: 0 <= i < j < |k| ==> k[i].id != k[j].id)
  }

  lemma {:induction false} KeptShape(calls: seq<Call>, seen: set<string>, n: nat)
    requires n <= |calls|
    ensures Survivors(Kept(calls, seen, n), seen, TakenBy(calls, seen, n))
  {
    var k, taken := Kept(calls, seen, n), TakenBy(calls, seen, n);
    forall i | 0 <= i < |k|
      ensures Survivor(k[i], seen, taken)
    {
      KeptSurvives(calls, seen, n, i);
    }
    forall i, j | 0 <= i < j < |k|
      ensures k[i].id != k[j].id
    {
      KeptDiffer(calls, seen, n, i, j);
    }
  }

  /** What one message contributes to the repaired list. */
  datatype Piece = Gone | Alone(message: Message) | Group(header: Message, results: seq<Message>)

  function PieceAt(ms: seq<Message>, p: nat): Piece
    requires p < |ms|
  {
    var m := ms[p];
    if m.Result? then
      if Orphan(m, Taken(ms, |ms|)) then Alone(Demoted(m)) else Gone
    else if m.Assistant? && m.calls != [] then
      var kept := KeptAt(ms, p);
      Group(Header(m, kept), AnswersFor(ms, kept, |kept|))
    else Alone(m)
  }

  function Pieces(ms: seq<Message>): seq<Piece> {
    seq(|ms|, p requires 0 <= p < |ms| => PieceAt(ms, p))
  }

  /** The repaired list with one more piece: a system message stays one only at the front. */
  function Place(r: seq<Message>, piece: Piece): seq<Message> {
    match piece
    case Gone => r
    case Alone(m) => r + [if m.System? && r != [] then SystemNote(m) else m]
    case Group(h, rs) => r + [h] + rs
  }

  function Rebuilt(pieces: seq<Piece>, n: nat): seq<Message>
    requires n <= |pieces|
  {
    if n == 0 then [] else Place(Rebuilt(pieces, n - 1), pieces[n - 1])
  }

  /** Some of the first n messages contributes something. */
  predicate Started(ms: seq<Message>, n: nat)
    requires n <= |ms|
  {
    n > 0 && (Started(ms, n - 1) || !ms[n - 1].Result? || Orphan(ms[n - 1], Taken(ms, |ms|)))
  }

  lemma {:induction false} StartedIff(ms: seq<Message>, n: nat)
    requires n <= |ms|
    ensures Started(ms, n) <==> Rebuilt(Pieces(ms), n) != []
  {
    if n > 0 {
      StartedIff(ms, n - 1);
    }
  }

  function GroupDefects(ms: seq<Message>, p: nat): set<Defect>
    requires p < |ms| && ms[p].Assistant?
  {
    var kept := KeptAt(ms, p);
    (if GroupSplit(p, GroupPositions(ms, kept, |kept|)) then {ToolGroupSplit} else {})
    + (if Unanswered(ms, kept, |kept|) then {ToolCallUnanswered} else {})
  }

  /** What reassembling the message at q adds to the defects. */
  function PlaceDefect(ms: seq<Message>, q: nat): set<Defect>
    requires q < |ms|
  {
    if ms[q].System? && Started(ms, q) then {SystemPosition}
    else if ms[q].Assistant? && ms[q].calls != [] then GroupDefects(ms, q)
    else {}
  }

  function PlaceDefects(ms: seq<Message>): nat -> set<Defect> {
    (q: nat) => if q < |ms| then PlaceDefect(ms, q) else {}
  }

  function Defects(ms: seq<Message>): set<Defect> {
    Gather(AnnouncementDefects(ms), |ms|) + Gather(ResultDefects(ms), |ms|) + Gather(PlaceDefects(ms), |ms|)
  }

  function Repaired(ms: seq<Message>): seq<Message> {
    Rebuilt(Pieces(ms), |ms|)
  }

  /** validate_chat_payload as a function of the payload. */
  function Validate(ms: seq<Message>): Verdict {
    if Defects(ms) == {} then Verdict(ms, {}, true)
    else Verdict(Repaired(ms), Defects(ms), false)
  }

  // The three passes as loops

  method SurvivingCalls(calls: seq<Call>, seen: set<string>)
    returns (surviving: seq<Call>, announced: set<string>, defects: set<Defect>)
    ensures surviving == Kept(calls, seen, |calls|)
    ensures announced == TakenBy(calls, seen, |calls|)
    ensures defects == Gather(CallDefects(calls, seen), |calls|)
  {
    surviving, announced, defects := [], seen, {};
    for i := 0 to |calls|
      invariant surviving == Kept(calls, seen, i)
      invariant announced == TakenBy(calls, seen, i)
      invariant defects == Gather(CallDefects(calls, seen), i)
    {
      var c := calls[i];
      assert CallDefects(calls, seen)(i) == CallDefect(c, announced);
      if !Named(c.id) {
        defects := defects + {ToolCallIdMissing};
      } else if c.id.value in announced {
        defects := defects + {ToolCallIdDuplicate};
      } else if !Named(c.name) {
        defects := defects + {ToolNameMissing};
      } else {
        if c.arguments.Object? {
          defects := defects + {ToolArgumentsNotString};
        }
        announced := announced + {c.id.value};
        surviving := surviving + [Canonical(c)];
      }
    }
  }

  /** kept_calls after the first n messages. */
  function KeptCalls(ms: seq<Message>, n: nat): map<nat, seq<Call>>
    requires n <= |ms|
  {
    if n == 0 then map[]
    else if CallsOf(ms[n - 1]) == [] then KeptCalls(ms, n - 1)
    else KeptCalls(ms, n - 1)[n - 1 := KeptAt(ms, n - 1)]
  }

  lemma {:induction false} KeptCallsAt(ms: seq<Message>, n: nat, p: nat)
    requires n <= |ms|
    ensures p in KeptCalls(ms, n) <==> p < n && CallsOf(ms[p]) != []
    ensures p in KeptCalls(ms, n) ==> KeptCalls(ms, n)[p] == KeptAt(ms, p)
  {
    if n > 0 {
      KeptCallsAt(ms, n - 1, p);
    }
  }

  /** Pass 1 moves over a message without calls... */
  lemma {:induction false} AnnouncementSkip(ms: seq<Message>, p: nat)
    requires p < |ms| && CallsOf(ms[p]) == []
    ensures Taken(ms, p + 1) == Taken(ms, p)
    ensures KeptCalls(ms, p + 1) == KeptCalls(ms, p)
    ensures Gather(AnnouncementDefects(ms), p + 1) == Gather(AnnouncementDefects(ms), p)
  {}

  /** ... and over one with calls. */
  lemma {:induction false} AnnouncementStep(ms: seq<Message>, p: nat, calls: seq<Call>, taken: set<string>)
    requires p < |ms| && CallsOf(ms[p]) == calls != [] && Taken(ms, p) == taken
    ensures Taken(ms, p + 1) == TakenBy(calls, taken, |calls|)
    ensures KeptCalls(ms, p + 1) == KeptCalls(ms, p)[p := Kept(calls, taken, |calls|)]
    ensures Gather(AnnouncementDefects(ms), p + 1)
            == Gather(AnnouncementDefects(ms), p) + Gather(CallDefects(calls, taken), |calls|)
  {}

  method CollectAnnouncements(messages: seq<Message>)
    returns (announced: set<string>, kept: map<nat, seq<Call>>, defects: set<Defect>)
    ensures announced == Taken(messages, |messages|)
    ensures kept == KeptCalls(messages, |messages|)
    ensures defects == Gather(AnnouncementDefects(messages), |messages|)
  {
    announced, kept, defects := {}, map[], {};
    for position := 0 to |messages|
      invariant announced == Taken(messages, position)
      invariant kept == KeptCalls(messages, position)
      invariant defects == Gather(AnnouncementDefects(messages), position)
    {
      var calls := CallsOf(messages[position]);
      if calls == [] {
        AnnouncementSkip(messages, position);
      } else {
        AnnouncementStep(messages, position, calls, announced);
        var surviving, ids, found := SurvivingCalls(calls, announced);
        kept := kept[position := surviving];
        announced, defects := ids, defects + found;
      }
    }
  }

  /** The result at p is the first one for an announced id. */
  predicate FirstResult(ms: seq<Message>, announced: set<string>, p: nat)
    requires p < |ms|
  {
    ms[p].Result? && !Orphan(ms[p], announced) && AnswerAt(ms, p, ms[p].callId.value).None?
  }

  /** answer_positions after the first n messages; answers holds their completed messages. */
  function AnswerPositions(ms: seq<Message>, announced: set<string>, n: nat): map<string, nat>
    requires n <= |ms|
  {
    if n == 0 then map[]
    else if FirstResult(ms, announced, n - 1) then
      AnswerPositions(ms, announced, n - 1)[ms[n - 1].callId.value := n - 1]
    else AnswerPositions(ms, announced, n - 1)
  }

  function AnswerMap(ms: seq<Message>, announced: set<string>, n: nat): map<string, Message>
    requires n <= |ms|
  {
    if n == 0 then map[]
    else if FirstResult(ms, announced, n - 1) then
      AnswerMap(ms, announced, n - 1)[ms[n - 1].callId.value := Completed(ms[n - 1])]
    else AnswerMap(ms, announced, n - 1)
  }

  lemma {:induction false} AnswerMapAt(ms: seq<Message>, announced: set<string>, n: nat, id: string)
    requires n <= |ms|
    ensures id in AnswerPositions(ms, announced, n) <==> id in announced && AnswerAt(ms, n, id).Some?
    ensures id in AnswerPositions(ms, announced, n) ==>
      AnswerAt(ms, n, id) == Some(AnswerPositions(ms, announced, n)[id])
    ensures id in AnswerMap(ms, announced, n) <==> id in AnswerPositions(ms, announced, n)
    ensures id in AnswerMap(ms, announced, n) ==>
      AnswerMap(ms, announced, n)[id] == Completed(ms[AnswerAt(ms, n, id).value])
  {
    if n > 0 {
      AnswerMapAt(ms, announced, n - 1, id);
    }
  }

  function DemotedOrphans(ms: seq<Message>, announced: set<string>, n: nat): map<nat, Message>
    requires n <= |ms|
  {
    if n == 0 then map[]
    else if Orphan(ms[n - 1], announced) then
      DemotedOrphans(ms, announced, n - 1)[n - 1 := Demoted(ms[n - 1])]
    else DemotedOrphans(ms, announced, n - 1)
  }

  lemma {:induction false} DemotedOrphansAt(ms: seq<Message>, announced: set<string>, n: nat, p: nat)
    requires n <= |ms|
    ensures p in DemotedOrphans(ms, announced, n) <==> p < n && Orphan(ms[p], announced)
    ensures p in DemotedOrphans(ms, announced, n) ==> DemotedOrphans(ms, announced, n)[p] == Demoted(ms[p])
  {
    if n > 0 {
      DemotedOrphansAt(ms, announced, n - 1, p);
    }
  }

  method CollectAnswers(messages: seq<Message>, announced: set<string>)
    returns (answers: map<string, Message>, positions: map<string, nat>,
             demoted: map<nat, Message>, defects: set<Defect>)
    requires announced == Taken(messages, |messages|)
    ensures answers == AnswerMap(messages, announced, |messages|)
    ensures positions == AnswerPositions(messages, announced, |messages|)
    ensures demoted == DemotedOrphans(messages, announced, |messages|)
    ensures defects == Gather(ResultDefects(messages), |messages|)
  {
    answers, positions, demoted, defects := map[], map[], map[], {};
    for position := 0 to |messages|
      invariant answers == AnswerMap(messages, announced, position)
      invariant positions == AnswerPositions(messages, announced, position)
      invariant demoted == DemotedOrphans(messages, announced, position)
      invariant defects == Gather(ResultDefects(messages), position)
    {
      var m := messages[position];
      if m.Result? {
        if m.callId.None? || m.callId.value !in announced {
          defects := defects + {ToolResultOrphan};
          demoted := demoted[position := Demoted(m)];
        } else {
          AnswerMapAt(messages, announced, position, m.callId.value);
          if m.callId.value in answers {
            defects := defects + {ToolResultDuplicate};
          } else {
            if !m.content.Words? {
              defects := defects + {ToolContentMissing};
            }
            answers := answers[m.callId.value := Completed(m)];
            positions := positions[m.callId.value := position];
          }
        }
      }
    }
  }

  /** Where the answers of an announced group stood, and the results placed behind it. */
  method CollectGroup(ghost ms: seq<Message>, calls: seq<Call>, ghost announced: set<string>,
                      answers: map<string, Message>, positions: map<string, nat>)
    returns (group: seq<nat>, results: seq<Message>, unanswered: bool)
    requires exists seen :: Survivors(calls, seen, announced)
    requires answers == AnswerMap(ms, announced, |ms|)
    requires positions == AnswerPositions(ms, announced, |ms|)
    ensures group == GroupPositions(ms, calls, |calls|)
    ensures results == AnswersFor(ms, calls, |calls|)
    ensures unanswered == Unanswered(ms, calls, |calls|)
  {
    group, results, unanswered := [], [], false;
    for i := 0 to |calls|
      invariant group == GroupPositions(ms, calls, i)
    {
      AnswerMapAt(ms, announced, |ms|, calls[i].id.value);
      if calls[i].id.value in positions {
        group := group + [positions[calls[i].id.value]];
      }
    }
    for i := 0 to |calls|
      invariant results == AnswersFor(ms, calls, i)
      invariant unanswered == Unanswered(ms, calls, i)
    {
      AnswerMapAt(ms, announced, |ms|, calls[i].id.value);
      if calls[i].id.value in answers {
        results := results + [answers[calls[i].id.value]];
      } else {
        unanswered := true;
        results := results + [Placeholder(calls[i])];
      }
    }
  }

  /** The message at p, its surviving calls and their results. */
  method ReassembleGroup(messages: seq<Message>, p: nat, calls: seq<Call>, ghost announced: set<string>,
                         answers: map<string, Message>, positions: map<string, nat>)
    returns (header: Message, results: seq<Message>, defects: set<Defect>)
    requires p < |messages| && messages[p].Assistant? && announced == Taken(messages, |messages|)
    requires calls == KeptAt(messages, p)
    requires answers == AnswerMap(messages, announced, |messages|)
    requires positions == AnswerPositions(messages, announced, |messages|)
    ensures header == Header(messages[p], calls) && results == AnswersFor(messages, calls, |calls|)
    ensures defects == GroupDefects(messages, p)
  {
    assert Survivors(calls, Taken(messages, p), announced) by {
      TakenGrows(messages, p + 1, |messages|);
      KeptShape(messages[p].calls, Taken(messages, p), |messages[p].calls|);
    }
    var group, unanswered;
    group, results, unanswered := CollectGroup(messages, calls, announced, answers, positions);
    header, defects := Header(messages[p], calls), {};
    if GroupSplit(p, group) {
      defects := defects + {ToolGroupSplit};
    }
    if unanswered {
      defects := defects + {ToolCallUnanswered};
    }
  }

  /** Reassembly of one message. */
  method ReassembleMessage(messages: seq<Message>, p: nat, repaired: seq<Message>, ghost announced: set<string>,
                           kept: map<nat, seq<Call>>, demoted: map<nat, Message>,
                           answers: map<string, Message>, positions: map<string, nat>)
    returns (extended: seq<Message>, defects: set<Defect>)
    requires p < |messages| && announced == Taken(messages, |messages|)
    requires repaired != [] <==> Started(messages, p)
    requires kept == KeptCalls(messages, |messages|)
    requires demoted == DemotedOrphans(messages, announced, |messages|)
    requires answers == AnswerMap(messages, announced, |messages|)
    requires positions == AnswerPositions(messages, announced, |messages|)
    ensures extended == Place(repaired, PieceAt(messages, p))
    ensures defects == PlaceDefect(messages, p)
  {
    var m := messages[p];
    defects := {};
    KeptCallsAt(messages, |messages|, p);
    if m.Result? {
      DemotedOrphansAt(messages, announced, |messages|, p);
      extended := if p in demoted then repaired + [demoted[p]] else repaired;
    } else if m.System? && repaired != [] {
      defects := {SystemPosition};
      extended := repaired + [SystemNote(m)];
    } else if p !in kept {
      extended := repaired + [m];
    } else {
      var header, results;
      header, results, defects := ReassembleGroup(messages, p, kept[p], announced, answers, positions);
      extended := repaired + [header] + results;
    }
  }

  lemma {:induction false} RebuiltStep(ms: seq<Message>, p: nat)
    requires p < |ms|
    ensures Rebuilt(Pieces(ms), p + 1) == Place(Rebuilt(Pieces(ms), p), PieceAt(ms, p))
    ensures Gather(PlaceDefects(ms), p + 1) == Gather(PlaceDefects(ms), p) + PlaceDefect(ms, p)
  {}

  method Reassemble(messages: seq<Message>, ghost announced: set<string>, kept: map<nat, seq<Call>>,
                    demoted: map<nat, Message>, answers: map<string, Message>, positions: map<string, nat>)
    returns (repaired: seq<Message>, defects: set<Defect>)
    requires announced == Taken(messages, |messages|)
    requires kept == KeptCalls(messages, |messages|)
    requires demoted == DemotedOrphans(messages, announced, |messages|)
    requires answers == AnswerMap(messages, announced, |messages|)
    requires positions == AnswerPositions(messages, announced, |messages|)
    ensures repaired == Repaired(messages)
    ensures defects == Gather(PlaceDefects(messages), |messages|)
  {
    repaired, defects := [], {};
    for position := 0 to |messages|
      invariant repaired == Rebuilt(Pieces(messages), position)
      invariant defects == Gather(PlaceDefects(messages), position)
    {
      StartedIff(messages, position);
      RebuiltStep(messages, position);
      var broken;
      repaired, broken := ReassembleMessage(messages, position, repaired, announced, kept, demoted,
                                            answers, positions);
      defects := defects + broken;
    }
  }

  method ValidateChatPayload(messages: seq<Message>) returns (v: Verdict)
    ensures v == Validate(messages)
  {
    if messages == [] {
      return Verdict([], {}, true);
    }
    var announced, kept, early := CollectAnnouncements(messages);
    var answers, positions, demoted, found := CollectAnswers(messages, announced);
    var repaired, late := Reassemble(messages, announced, kept, demoted, answers, positions);
    var defects := early + found + late;
    if defects == {} {
      v := Verdict(messages, {}, true);
    } else {
      v := Verdict(repaired, defects, false);
    }
  }

  lemma {:induction false} TakenGrows(ms: seq<Message>, m: nat, n: nat)
    requires m <= n <= |ms|
    ensures Taken(ms, m) <= Taken(ms, n)
    decreases n
  {
    if m < n {
      TakenGrows(ms, m, n - 1);
      var calls := CallsOf(ms[n - 1]);
      TakenByGrows(calls, Taken(ms, n - 1), 0, |calls|);
    }
  }
}
