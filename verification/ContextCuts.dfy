/** The functions that cut, clip and splice a payload: on well-formed payloads each keeps
    whole call/result groups, so that the validator has nothing left to repair. */
module ContextCuts {
  import opened Text
  import opened ChatPayload
  import opened WellFormedPayload

  const MIN_RETAINED := 1
  const TAIL_MESSAGES := 12
  const TAIL_CHARS := 2000

  predicate Announcing(m: Message) { CallsOf(m) != [] }

  /** Positions of the announcing messages among the first n. */
  function GroupIndices(ms: seq<Message>, n: nat): seq<nat>
    requires n <= |ms|
  {
    if n == 0 then []
    else if Announcing(ms[n - 1]) then GroupIndices(ms, n - 1) + [n - 1]
    else GroupIndices(ms, n - 1)
  }

  function Groups(ms: seq<Message>): seq<nat> { GroupIndices(ms, |ms|) }

  /** How many groups a payload announces. */
  function GroupCount(ms: seq<Message>): nat { |Groups(ms)| }

  lemma {:induction false} GroupIndicesAt(ms: seq<Message>, n: nat)
    requires n <= |ms|
    ensures forall j :: 0 <= j < |GroupIndices(ms, n)| ==>
        GroupIndices(ms, n)[j] < n && Announcing(ms[GroupIndices(ms, n)[j]])
    ensures |GroupIndices(ms, n)| <= n
  {
    if n > 0 {
      GroupIndicesAt(ms, n - 1);
    }
  }

  lemma {:induction false} GroupIndicesAll(ms: seq<Message>, n: nat, p: nat)
    requires p < n <= |ms| && Announcing(ms[p])
    ensures p in GroupIndices(ms, n)
  {
    if p < n - 1 {
      GroupIndicesAll(ms, n - 1, p);
    }
  }

  // Cuts

  /** A place where a payload can be cut without dividing a group. */
  predicate Boundary(ms: seq<Message>, k: nat) {
    k <= |ms| && (k < |ms| ==> !ms[k].Result?)
  }

  lemma {:induction false} ResultsBehind(ms: seq<Message>, p: nat, i: nat, k: nat)
    requires WellFormed(ms) && CallIn(ms, p, i) && p < k <= p + 1 + i
    ensures k < |ms| && ms[k].Result?
  {
    assert CallIn(ms, p, k - p - 1);
    assert AnsweredInPlace(ms, p, k - p - 1);
  }

  /** No group reaches across a boundary. */
  lemma {:induction false} GroupsStayOnOneSide(ms: seq<Message>, k: nat, p: nat, i: nat)
    requires WellFormed(ms) && Boundary(ms, k) && CallIn(ms, p, i) && p < k
    ensures p + 1 + i < k
  {
    if k <= p + 1 + i {
      ResultsBehind(ms, p, i, k);
    }
  }

  lemma {:induction false} PrefixWellFormed(ms: seq<Message>, k: nat)
    requires WellFormed(ms) && Boundary(ms, k)
    ensures WellFormed(ms[..k])
  {
    var a := ms[..k];
    forall p: nat, i: nat | CallIn(a, p, i)
      ensures Good(CallAt(a, p, i)) && AnsweredInPlace(a, p, i)
    {
      assert CallIn(ms, p, i) && CallAt(a, p, i) == CallAt(ms, p, i);
      assert AnsweredInPlace(ms, p, i);
      GroupsStayOnOneSide(ms, k, p, i);
    }
    forall p: nat, i: nat, q: nat, j: nat | SameId(a, p, i, q, j)
      ensures p == q && i == j
    {
      assert SameId(ms, p, i, q, j);
    }
    forall q: nat | q < |a| && a[q].Result?
      ensures InGroup(a, q)
    {
      assert InGroup(ms, q);
      var p: nat, i: nat :| CallIn(ms, p, i) && q == p + 1 + i;
      assert CallIn(a, p, i);
    }
  }

  lemma {:induction false} SuffixWellFormed(ms: seq<Message>, k: nat)
    requires WellFormed(ms) && Boundary(ms, k)
    ensures WellFormed(ms[k..])
    ensures 0 < k ==> forall q :: 0 <= q < |ms[k..]| ==> !ms[k..][q].System?
  {
    var b := ms[k..];
    forall p: nat, i: nat | CallIn(b, p, i)
      ensures Good(CallAt(b, p, i)) && AnsweredInPlace(b, p, i)
    {
      assert CallIn(ms, k + p, i) && CallAt(b, p, i) == CallAt(ms, k + p, i);
      assert AnsweredInPlace(ms, k + p, i);
    }
    forall p: nat, i: nat, q: nat, j: nat | SameId(b, p, i, q, j)
      ensures p == q && i == j
    {
      assert SameId(ms, k + p, i, k + q, j);
    }
    forall q: nat | q < |b| && b[q].Result?
      ensures InGroup(b, q)
    {
      assert InGroup(ms, k + q);
      var p: nat, i: nat :| CallIn(ms, p, i) && k + q == p + 1 + i;
      if p < k {
        GroupsStayOnOneSide(ms, k, p, i);
      }
      assert CallIn(b, p - k, i);
    }
  }

  /** The two sides of a cut announce different ids. */
  lemma {:induction false} SidesDiffer(ms: seq<Message>, j: nat, k: nat, id: string)
    requires UniqueCalls(ms) && j <= k <= |ms|
    ensures !(Announces(ms[..j], id) && Announces(ms[k..], id))
  {
    if Announces(ms[..j], id) && Announces(ms[k..], id) {
      var p: nat, i: nat :| CallIn(ms[..j], p, i) && CallAt(ms[..j], p, i).id == Some(id);
      var q: nat, l: nat :| CallIn(ms[k..], q, l) && CallAt(ms[k..], q, l).id == Some(id);
      assert SameId(ms, p, i, k + q, l);
    }
  }

  /** A prefix and a later suffix, both cut at boundaries, fit together again. */
  lemma {:induction false} SpliceWellFormed(ms: seq<Message>, j: nat, k: nat)
    requires WellFormed(ms) && j <= k && Boundary(ms, j) && Boundary(ms, k)
    ensures WellFormed(ms[..j] + ms[k..])
  {
    PrefixWellFormed(ms, j);
    SuffixWellFormed(ms, k);
    forall id
      ensures !(Announces(ms[..j], id) && Announces(ms[k..], id))
    {
      SidesDiffer(ms, j, k, id);
    }
    WellFormedConcat(ms[..j], ms[k..]);
  }

  /** A message without calls that is neither a result nor a system message. */
  predicate PlainMessage(m: Message) {
    CallsOf(m) == [] && !m.Result? && !m.System?
  }

  lemma {:induction false} NoIdTwice(a: seq<Message>, b: seq<Message>)
    requires forall id :: !Announces(a, id)
    ensures forall id :: !(Announces(a, id) && Announces(b, id)) && !(Announces(b, id) && Announces(a, id))
  {}

  /** Plain messages may be put in front, at the end... */
  lemma {:induction false} PlainInFront(m: Message, ms: seq<Message>)
    requires WellFormed(ms) && CallsOf(m) == [] && !m.Result? && (ms == [] || !ms[0].System?)
    ensures WellFormed([m] + ms)
  {
    SingleMessage(m);
    NoIdTwice([m], ms);
    WellFormedConcat([m], ms);
  }

  lemma {:induction false} PlainAtEnd(ms: seq<Message>, m: Message)
    requires WellFormed(ms) && PlainMessage(m)
    ensures WellFormed(ms + [m])
  {
    SingleMessage(m);
    NoIdTwice([m], ms);
    WellFormedConcat(ms, [m]);
  }

  /** ... or into the place of whole groups. */
  lemma {:induction false} PlainBetween(ms: seq<Message>, j: nat, m: Message, k: nat)
    requires WellFormed(ms) && j <= k && Boundary(ms, j) && Boundary(ms, k) && PlainMessage(m)
    requires k == 0 ==> ms == [] || !ms[0].System?
    ensures WellFormed(ms[..j] + [m] + ms[k..])
  {
    PrefixWellFormed(ms, j);
    SuffixWellFormed(ms, k);
    PlainAtEnd(ms[..j], m);
    var a, b := ms[..j] + [m], ms[k..];
    SingleMessage(m);
    forall id
      ensures !(Announces(a, id) && Announces(b, id))
    {
      SidesDiffer(ms, j, k, id);
      if Announces(a, id) {
        AnnouncesConcat(ms[..j], [m], id);
      }
    }
    assert b == [] || b[0] == ms[k];
    WellFormedConcat(a, b);
  }

  // Splitting off the recent groups

  /** split_recent_agent_context: where the recent part starts. Python's g[-0] is g[0]. */
  function RecentStart(ms: seq<Message>, keep: nat): (k: nat)
    ensures k <= |ms|
  {
    var g := Groups(ms);
    GroupIndicesAt(ms, |ms|);
    if |g| <= keep then |ms| else if keep == 0 then g[0] else g[|g| - keep]
  }

  lemma {:induction false} RecentStartIsBoundary(ms: seq<Message>, keep: nat)
    ensures Boundary(ms, RecentStart(ms, keep))
    ensures GroupCount(ms) > keep ==> RecentStart(ms, keep) < |ms| && Announcing(ms[RecentStart(ms, keep)])
  {
    GroupIndicesAt(ms, |ms|);
  }

  lemma {:induction false} GroupIndicesSplit(ms: seq<Message>, k: nat, n: nat)
    requires k <= n <= |ms|
    ensures |GroupIndices(ms, n)| == |GroupIndices(ms, k)| + |GroupIndices(ms[k..], n - k)|
    decreases n
  {
    if k < n {
      GroupIndicesSplit(ms, k, n - 1);
      assert ms[k..][n - k - 1] == ms[n - 1];
    }
  }

  lemma {:induction false} GroupIndicesBefore(ms: seq<Message>, n: nat, j: nat)
    requires n <= |ms| && j < |GroupIndices(ms, n)|
    ensures GroupIndices(ms, n)[j] <= n && |GroupIndices(ms, GroupIndices(ms, n)[j])| == j
  {
    if j < |GroupIndices(ms, n - 1)| {
      GroupIndicesBefore(ms, n - 1, j);
    }
  }

  /** The recent part holds exactly the last `keep` groups when there are more, and no
      group otherwise; keep = 0 retains every group. */
  lemma {:induction false} RecentGroups(ms: seq<Message>, keep: nat)
    ensures GroupCount(ms[RecentStart(ms, keep)..]) ==
      if GroupCount(ms) <= keep then 0 else if keep == 0 then GroupCount(ms) else keep
  {
    var g, k := Groups(ms), RecentStart(ms, keep);
    GroupIndicesSplit(ms, k, |ms|);
    if |g| > keep {
      GroupIndicesBefore(ms, |ms|, if keep == 0 then 0 else |g| - keep);
    }
  }

  /** Both parts of the split are well-formed and no system message is carried over. */
  lemma {:induction false} SplitWellFormed(ms: seq<Message>, keep: nat)
    requires WellFormed(ms)
    ensures WellFormed(ms[..RecentStart(ms, keep)]) && WellFormed(ms[RecentStart(ms, keep)..])
    ensures forall q :: 0 <= q < |ms[RecentStart(ms, keep)..]| ==> !ms[RecentStart(ms, keep)..][q].System?
  {
    var k := RecentStart(ms, keep);
    RecentStartIsBoundary(ms, keep);
    PrefixWellFormed(ms, k);
    SuffixWellFormed(ms, k);
  }

  /** flush_agent_context: system message, recent groups, resume note. */
  function Flushed(ms: seq<Message>, keep: nat, system: Content, note: string): seq<Message> {
    Validate([System(system)] + ms[RecentStart(ms, keep)..] + [User(Words(note))]).messages
  }

  lemma {:induction false} FlushKeepsWholeGroups(ms: seq<Message>, keep: nat, system: Content, note: string)
    requires WellFormed(ms)
    ensures WellFormed(Flushed(ms, keep, system, note))
    ensures Flushed(ms, keep, system, note) == [System(system)] + ms[RecentStart(ms, keep)..] + [User(Words(note))]
  {
    var recent := ms[RecentStart(ms, keep)..];
    SplitWellFormed(ms, keep);
    PlainInFront(System(system), recent);
    PlainAtEnd([System(system)] + recent, User(Words(note)));
    AcceptedIffWellFormed([System(system)] + recent + [User(Words(note))]);
  }

  lemma {:induction false} BehindTwo(system: Content, note: string, c: seq<Message>)
    requires WellFormed(c) && (c == [] || !c[0].System?)
    ensures WellFormed([System(system), User(Words(note))] + c)
  {
    PlainInFront(User(Words(note)), c);
    PlainInFront(System(system), [User(Words(note))] + c);
    assert [System(system)] + ([User(Words(note))] + c) == [System(system), User(Words(note))] + c;
  }

  /** The message splice of rollover_agent_context: system, resume note, recent groups. */
  function RolledOver(ms: seq<Message>, keep: nat, system: Content, note: string): seq<Message> {
    Validate([System(system), User(Words(note))] + ms[RecentStart(ms, keep)..]).messages
  }

  lemma {:induction false} RolloverKeepsWholeGroups(ms: seq<Message>, keep: nat, system: Content, note: string)
    requires WellFormed(ms)
    ensures WellFormed(RolledOver(ms, keep, system, note))
    ensures RolledOver(ms, keep, system, note) == [System(system), User(Words(note))] + ms[RecentStart(ms, keep)..]
  {
    var recent := ms[RecentStart(ms, keep)..];
    SplitWellFormed(ms, keep);
    BehindTwo(system, note, recent);
    AcceptedIffWellFormed([System(system), User(Words(note))] + recent);
  }

  // The character bound

  /** Characters of content in the first n messages. */
  function Chars(ms: seq<Message>, n: nat): nat
    requires n <= |ms|
  {
    if n == 0 then 0 else Chars(ms, n - 1) + |Shown(ms[n - 1].content)|
  }

  function Size(ms: seq<Message>): nat { Chars(ms, |ms|) }

  /** Characters left when only the last k groups are kept behind the prefix. */
  function KeptSize(ms: seq<Message>, k: nat): nat
    requires 0 < k <= GroupCount(ms)
  {
    GroupIndicesAt(ms, |ms|);
    Size(ms[..Groups(ms)[0]]) + Size(ms[Groups(ms)[GroupCount(ms) - k]..])
  }

  /** How many groups bound_agent_payload keeps: as many as fit, trying k downwards. */
  function GroupsKept(ms: seq<Message>, max: nat, k: nat): (n: nat)
    requires MIN_RETAINED <= k <= GroupCount(ms)
    ensures MIN_RETAINED <= n <= k
  {
    if k == MIN_RETAINED || KeptSize(ms, k) <= max then k else GroupsKept(ms, max, k - 1)
  }

  function Least(a: nat, b: nat): nat { if a < b then a else b }

  predicate Oversized(ms: seq<Message>, max: nat) {
    Size(ms) > max && GroupCount(ms) > MIN_RETAINED
  }

  /** The groups kept of an oversized payload; a configured limit below one keeps one. */
  function BoundKeeps(ms: seq<Message>, max: nat, keep: nat): (n: nat)
    requires GroupCount(ms) > MIN_RETAINED
    ensures MIN_RETAINED <= n <= GroupCount(ms)
  {
    if keep < MIN_RETAINED then MIN_RETAINED
    else GroupsKept(ms, max, Least(GroupCount(ms), keep))
  }

  function DroppedNotice(dropped: nat, kept: nat): Message {
    User(Words("[🤖 시스템 메모리 보호: 컨텍스트 메모리 한도 유지를 위해 이전 " + Decimal(dropped)
      + "개 도구 실행 세부 기록을 생략하고 최신 " + Decimal(kept) + "개 도구 결과만 유지합니다. "
      + "이전 작업 기록은 시스템 프롬프트의 절차 요약(Tier 2/3)을 참조하세요.]"))
  }

  /** The payload with a notice in the place of all but its last n groups. */
  function CutDown(ms: seq<Message>, n: nat): seq<Message>
    requires 0 < n <= GroupCount(ms)
  {
    GroupIndicesAt(ms, |ms|);
    var g := Groups(ms);
    ms[..g[0]] + [DroppedNotice(|g| - n, n)] + ms[g[|g| - n]..]
  }

  lemma {:induction false} CutDownWellFormed(ms: seq<Message>, n: nat)
    requires WellFormed(ms) && 0 < n <= GroupCount(ms)
    ensures WellFormed(CutDown(ms, n))
  {
    GroupIndicesAt(ms, |ms|);
    var g := Groups(ms);
    GroupsInOrder(ms, |ms|, |g| - n);
    PlainBetween(ms, g[0], DroppedNotice(|g| - n, n), g[|g| - n]);
  }

  /** The bound leaves out some groups. */
  predicate Cuts(ms: seq<Message>, max: nat, keep: nat) {
    Oversized(ms, max) && BoundKeeps(ms, max, keep) != GroupCount(ms)
  }

  /** bound_agent_payload: the first group and everything up to the kept ones give way to a notice. */
  function Bounded(ms: seq<Message>, max: nat, keep: nat): seq<Message> {
    if !Cuts(ms, max, keep) then ms else Validate(CutDown(ms, BoundKeeps(ms, max, keep))).messages
  }

  /** The number of groups kept is the largest allowed one that fits, or the minimum. */
  lemma {:induction false} GroupsKeptIsLargest(ms: seq<Message>, max: nat, k: nat, j: nat)
    requires MIN_RETAINED <= k <= GroupCount(ms) && GroupsKept(ms, max, k) < j <= k
    ensures KeptSize(ms, j) > max
    ensures GroupsKept(ms, max, k) > MIN_RETAINED ==> KeptSize(ms, GroupsKept(ms, max, k)) <= max
  {
    if j < k {
      GroupsKeptIsLargest(ms, max, k - 1, j);
    } else if GroupsKept(ms, max, k) > MIN_RETAINED {
      GroupsKeptFits(ms, max, k);
    }
  }

  lemma {:induction false} GroupsKeptFits(ms: seq<Message>, max: nat, k: nat)
    requires MIN_RETAINED <= k <= GroupCount(ms) && GroupsKept(ms, max, k) > MIN_RETAINED
    ensures KeptSize(ms, GroupsKept(ms, max, k)) <= max
  {
    if !(k == MIN_RETAINED || KeptSize(ms, k) <= max) {
      GroupsKeptFits(ms, max, k - 1);
    }
  }

  /** Bounding a well-formed payload gives it back, or whole groups behind its prefix and
      the notice; the validator changes nothing. */
  lemma {:induction false} BoundKeepsWholeGroups(ms: seq<Message>, max: nat, keep: nat)
    requires WellFormed(ms)
    ensures WellFormed(Bounded(ms, max, keep))
    ensures Bounded(ms, max, keep) == ms
            || (Oversized(ms, max) && Bounded(ms, max, keep) == CutDown(ms, BoundKeeps(ms, max, keep)))
  {
    if Cuts(ms, max, keep) {
      var cut := CutDown(ms, BoundKeeps(ms, max, keep));
      CutDownWellFormed(ms, BoundKeeps(ms, max, keep));
      AcceptedIffWellFormed(cut);
    }
  }

  lemma {:induction false} GroupsInOrder(ms: seq<Message>, n: nat, j: nat)
    requires n <= |ms| && j < |GroupIndices(ms, n)|
    ensures GroupIndices(ms, n)[0] <= GroupIndices(ms, n)[j]
  {
    GroupIndicesAt(ms, n - 1);
    if j < |GroupIndices(ms, n - 1)| {
      GroupsInOrder(ms, n - 1, j);
    }
  }

  method ChooseGroups(messages: seq<Message>, max: nat, keep: nat) returns (chosen: nat)
    requires GroupCount(messages) > MIN_RETAINED
    ensures chosen == BoundKeeps(messages, max, keep)
  {
    var k := Least(GroupCount(messages), keep);
    while k >= MIN_RETAINED
      invariant k <= GroupCount(messages)
      invariant keep < MIN_RETAINED ==> k == keep
      invariant keep >= MIN_RETAINED ==>
          MIN_RETAINED <= k && BoundKeeps(messages, max, keep) == GroupsKept(messages, max, k)
    {
      if KeptSize(messages, k) <= max || k == MIN_RETAINED {
        return k;
      }
      k := k - 1;
    }
    chosen := MIN_RETAINED;
  }

  method BoundAgentPayload(messages: seq<Message>, max: nat, keep: nat) returns (bounded: seq<Message>)
    ensures bounded == Bounded(messages, max, keep)
  {
    if Size(messages) <= max {
      return messages;
    }
    var groups := GroupCount(messages);
    if groups <= MIN_RETAINED {
      return messages;
    }
    var chosen := ChooseGroups(messages, max, keep);
    if groups - chosen == 0 {
      return messages;
    }
    var v := ValidateChatPayload(CutDown(messages, chosen));
    bounded := v.messages;
  }

  /** A payload that starts with a system message. */
  predicate Headed(ms: seq<Message>) {
    ms != [] && ms[0].System?
  }

  /** The playbook block goes in behind the system message. */
  function WithBlock(payload: seq<Message>, block: string): seq<Message> {
    if block == "" then payload
    else
      var at := if Headed(payload) then 1 else 0;
      payload[..at] + [Assistant(Words(block), [])] + payload[at..]
  }

  /** build_agent_request_payload. */
  function Requested(ms: seq<Message>, block: string, max: nat, keep: nat): seq<Message> {
    Bounded(WithBlock(Validate(ms).messages, block), max, keep)
  }

  lemma {:induction false} WithBlockIsWellFormed(payload: seq<Message>, block: string)
    requires WellFormed(payload)
    ensures WellFormed(WithBlock(payload, block))
  {
    if block != "" {
      var at := if Headed(payload) then 1 else 0;
      FrontIsBoundary(payload, at);
      PlainBetween(payload, at, Assistant(Words(block), []), at);
    }
  }

  /** A request is well-formed unless a result precedes its announcement. */
  lemma {:induction false} RequestIsWellFormed(ms: seq<Message>, block: string, max: nat, keep: nat)
    requires NoEarlyResult(ms)
    ensures WellFormed(Requested(ms, block, max, keep))
  {
    ValidatedIsWellFormed(ms);
    WithBlockIsWellFormed(Validate(ms).messages, block);
    BoundKeepsWholeGroups(WithBlock(Validate(ms).messages, block), max, keep);
  }

  lemma {:induction false} ResultHasHeader(ms: seq<Message>, q: nat) returns (p: nat)
    requires WellFormed(ms) && q < |ms| && ms[q].Result?
    ensures p < q && Announcing(ms[p]) && q <= p + |CallsOf(ms[p])|
  {
    assert InGroup(ms, q);
    var i: nat;
    p, i :| CallIn(ms, p, i) && q == p + 1 + i;
  }

  lemma {:induction false} FrontIsBoundary(ms: seq<Message>, k: nat)
    requires WellFormed(ms) && k <= |ms| && (k == 0 || (k == 1 && ms[0].System?))
    ensures Boundary(ms, k)
  {
    if k < |ms| && ms[k].Result? {
      var p := ResultHasHeader(ms, k);
    }
  }
}
