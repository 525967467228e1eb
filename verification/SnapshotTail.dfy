/** The bounded tail stored with a run, the clipping of tool results, and the emergency
    rebase: each returns whole groups. */
module SnapshotTail {
  import opened Text
  import opened ChatPayload
  import opened WellFormedPayload
  import opened ContextCuts

  // Rewriting message by message

  /** m' is m with other texts: same role, same ids, calls still good, text still text. */
  predicate SameShape(m: Message, m': Message) {
    match m
    case System(_) => m'.System?
    case User(_) => m'.User?
    case Other(_, _) => m'.Other?
    case Assistant(_, calls) =>
      && m'.Assistant? && |m'.calls| == |calls|
      && (forall i :: 0 <= i < |calls| && Good(calls[i]) ==> Good(m'.calls[i]) && m'.calls[i].id == calls[i].id)
    case Result(id, _, c) => m'.Result? && (Named(id) ==> m'.callId == id) && (c.Words? ==> m'.content.Words?)
  }

  ghost predicate SameShapes(ms: seq<Message>, ms': seq<Message>) {
    |ms'| == |ms| && forall k: nat {:trigger SameShape(ms[k], ms'[k])} :: k < |ms| ==> SameShape(ms[k], ms'[k])
  }

  lemma {:induction false} ShapedCall(ms: seq<Message>, ms': seq<Message>, p: nat, i: nat)
    requires SameShapes(ms, ms') && UniqueCalls(ms) && CallIn(ms', p, i)
    ensures CallIn(ms, p, i) && Good(CallAt(ms', p, i)) && CallAt(ms', p, i).id == CallAt(ms, p, i).id
  {
    assert SameShape(ms[p], ms'[p]);
    assert CallIn(ms, p, i) && Good(CallAt(ms, p, i));
  }

  lemma {:induction false} ShapedAnswer(ms: seq<Message>, ms': seq<Message>, p: nat, i: nat)
    requires SameShapes(ms, ms') && WellFormed(ms) && CallIn(ms', p, i)
    ensures AnsweredInPlace(ms', p, i)
  {
    ShapedCall(ms, ms', p, i);
    assert AnsweredInPlace(ms, p, i);
    assert SameShape(ms[p + 1 + i], ms'[p + 1 + i]);
  }

  lemma {:induction false} ShapedResult(ms: seq<Message>, ms': seq<Message>, q: nat)
    requires SameShapes(ms, ms') && WellFormed(ms) && q < |ms'| && ms'[q].Result?
    ensures InGroup(ms', q)
  {
    assert SameShape(ms[q], ms'[q]);
    assert InGroup(ms, q);
    var p: nat, i: nat :| CallIn(ms, p, i) && q == p + 1 + i;
    assert SameShape(ms[p], ms'[p]);
    assert CallIn(ms', p, i);
  }

  /** Rewriting texts only keeps a payload well-formed. */
  lemma {:induction false} RewrittenIsWellFormed(ms: seq<Message>, ms': seq<Message>)
    requires SameShapes(ms, ms') && WellFormed(ms)
    ensures WellFormed(ms')
  {
    forall p: nat, i: nat | CallIn(ms', p, i)
      ensures Good(CallAt(ms', p, i)) && AnsweredInPlace(ms', p, i)
    {
      ShapedCall(ms, ms', p, i);
      ShapedAnswer(ms, ms', p, i);
    }
    forall p: nat, i: nat, q: nat, j: nat | SameId(ms', p, i, q, j)
      ensures p == q && i == j
    {
      ShapedCall(ms, ms', p, i);
      ShapedCall(ms, ms', q, j);
      assert SameId(ms, p, i, q, j);
    }
    forall q: nat | q < |ms'| && ms'[q].Result?
      ensures InGroup(ms', q)
    {
      ShapedResult(ms, ms', q);
    }
    forall q: nat | 0 < q < |ms'|
      ensures !ms'[q].System?
    {
      assert SameShape(ms[q], ms'[q]) && !ms[q].System?;
    }
  }

  function ClipContent(c: Content, n: nat): Content {
    match c
    case Nothing => Nothing
    case Words(t) => Words(Clip(t, n))
    case Structure(t) => Words(Clip(t, n))
  }

  function SnapshotCall(c: Call): Call {
    var args := match c.arguments case Plain(t) => t case Object(j) => j;
    Call(Some(IdOf(c)), Some(if Named(c.name) then c.name.value else "tool"), Plain(Clip(args, TAIL_CHARS)), false)
  }

  function SnapshotCalls(calls: seq<Call>): (r: seq<Call>)
    ensures |r| == |calls|
    ensures forall i :: 0 <= i < |r| ==> r[i] == SnapshotCall(calls[i])
  {
    seq(|calls|, i requires 0 <= i < |calls| => SnapshotCall(calls[i]))
  }

  /** _snapshot_message: one message as a bounded record. */
  function Snapshot(m: Message): Message {
    match m
    case System(c) => System(ClipContent(c, TAIL_CHARS))
    case User(c) => User(ClipContent(c, TAIL_CHARS))
    case Other(r, c) => Other(r, ClipContent(c, TAIL_CHARS))
    case Assistant(c, calls) => Assistant(ClipContent(c, TAIL_CHARS), SnapshotCalls(calls))
    case Result(id, name, c) => Result(if Named(id) then id else None, name, ClipContent(c, TAIL_CHARS))
  }

  function Snapshots(ms: seq<Message>): (r: seq<Message>)
    ensures |r| == |ms|
    ensures forall i :: 0 <= i < |r| ==> r[i] == Snapshot(ms[i])
  {
    seq(|ms|, i requires 0 <= i < |ms| => Snapshot(ms[i]))
  }

  lemma {:induction false} SnapshotKeepsShape(m: Message)
    ensures SameShape(m, Snapshot(m))
  {}

  lemma {:induction false} SnapshotsWellFormed(ms: seq<Message>)
    requires WellFormed(ms)
    ensures WellFormed(Snapshots(ms))
  {
    forall k: nat | k < |ms|
      ensures SameShape(ms[k], Snapshots(ms)[k])
    {
      SnapshotKeepsShape(ms[k]);
    }
    RewrittenIsWellFormed(ms, Snapshots(ms));
  }

  // Clipping results

  function ClipResult(m: Message, n: nat): Message {
    if m.Result? && |Shown(m.content)| > n then Result(m.callId, m.name, Words(Clip(Shown(m.content), n))) else m
  }

  function ClipResults(ms: seq<Message>, n: nat, k: nat): (r: seq<Message>)
    requires k <= |ms|
    ensures |r| == k && forall i :: 0 <= i < k ==> r[i] == ClipResult(ms[i], n)
  {
    if k == 0 then [] else ClipResults(ms, n, k - 1) + [ClipResult(ms[k - 1], n)]
  }

  /** _clip_tool_result_messages. */
  function Clipped(ms: seq<Message>, n: nat): seq<Message> {
    Validate(ClipResults(ms, n, |ms|)).messages
  }

  /** Every result text of the clipped payload fits, and its groups stay whole. */
  lemma {:induction false} ClippedIsWellFormed(ms: seq<Message>, n: nat)
    requires WellFormed(ms)
    ensures WellFormed(Clipped(ms, n)) && SameShapes(ms, Clipped(ms, n))
    ensures Clipped(ms, n) == ClipResults(ms, n, |ms|)
    ensures forall q :: 0 <= q < |Clipped(ms, n)| && Clipped(ms, n)[q].Result? ==>
        |Shown(Clipped(ms, n)[q].content)| <= n
  {
    var r := ClipResults(ms, n, |ms|);
    forall k: nat | k < |ms|
      ensures SameShape(ms[k], r[k])
    {
      assert r[k] == ClipResult(ms[k], n);
    }
    RewrittenIsWellFormed(ms, r);
    AcceptedIffWellFormed(r);
  }

  method ClipToolResultMessages(messages: seq<Message>, max: nat) returns (r: seq<Message>)
    ensures r == Clipped(messages, max)
  {
    var clipped := [];
    for i := 0 to |messages|
      invariant clipped == ClipResults(messages, max, i)
    {
      if !messages[i].Result? || |Shown(messages[i].content)| <= max {
        clipped := clipped + [messages[i]];
      } else {
        clipped := clipped + [ClipResult(messages[i], max)];
      }
    }
    var v := ValidateChatPayload(clipped);
    r := v.messages;
  }

  // The tail

  function NonSystem(ms: seq<Message>): seq<Message> {
    if ms == [] then [] else if ms[0].System? then NonSystem(ms[1..]) else [ms[0]] + NonSystem(ms[1..])
  }

  lemma {:induction false} NonSystemOf(ms: seq<Message>)
    requires forall q :: 0 <= q < |ms| ==> !ms[q].System?
    ensures NonSystem(ms) == ms
  {
    if ms != [] {
      NonSystemOf(ms[1..]);
    }
  }

  /** Python's s[-n:]. */
  function LastStart(s: seq<Message>, n: nat): (k: nat)
    ensures k <= |s|
  {
    if n == 0 || |s| <= n then 0 else |s| - n
  }

  /** The first position from k on that does not hold a result. */
  function BehindResults(s: seq<Message>, k: nat): (j: nat)
    requires k <= |s|
    ensures k <= j && Boundary(s, j)
    ensures forall q :: k <= q < j ==> s[q].Result?
    decreases |s| - k
  {
    if k < |s| && s[k].Result? then BehindResults(s, k + 1) else k
  }

  /** The last announcing position below n, or None. */
  function LastGroup(s: seq<Message>, n: nat): (g: Option<nat>)
    requires n <= |s|
    ensures g.Some? ==> g.value < n && Announcing(s[g.value])
  {
    if n == 0 then None else if Announcing(s[n - 1]) then Some(n - 1) else LastGroup(s, n - 1)
  }

  ghost predicate AnsweredBehind(s: seq<Message>, k: nat, id: Option<string>) {
    Named(id) && exists q: nat :: k < q < |s| && Answers(s[q], id.value)
  }

  /** Every call announced at k has a result behind it. */
  ghost predicate SettledAt(s: seq<Message>, k: nat)
    requires k < |s|
  {
    forall i: nat :: i < |CallsOf(s[k])| ==> AnsweredBehind(s, k, CallsOf(s[k])[i].id)
  }

  /** An unsettled last group goes with everything behind it. */
  ghost function WithoutOpenGroup(s: seq<Message>): seq<Message> {
    match LastGroup(s, |s|)
    case None => s
    case Some(k) => if SettledAt(s, k) then s else s[..k]
  }

  /** snapshot_tail. */
  ghost function Tail(ms: seq<Message>, max: nat): seq<Message> {
    var t := NonSystem(ms);
    Snapshots(WithoutOpenGroup(t[BehindResults(t, LastStart(t, max))..]))
  }

  /** The ids of the results behind k. */
  method SettledIds(s: seq<Message>, k: nat) returns (ids: set<string>)
    requires k < |s|
    ensures forall id :: id in ids <==> AnsweredBehind(s, k, Some(id))
  {
    ids := {};
    for q := k + 1 to |s|
      invariant forall id :: id in ids <==> id != "" && exists j: nat :: k < j < q && Answers(s[j], id)
    {
      if s[q].Result? && Named(s[q].callId) {
        ids := ids + {s[q].callId.value};
        assert Answers(s[q], s[q].callId.value);
      }
    }
  }

  method IsSettled(s: seq<Message>, k: nat) returns (b: bool)
    requires k < |s|
    ensures b <==> SettledAt(s, k)
  {
    var settled := SettledIds(s, k);
    var calls := CallsOf(s[k]);
    for i := 0 to |calls|
      invariant forall j :: 0 <= j < i ==> AnsweredBehind(s, k, calls[j].id)
    {
      if !(Named(calls[i].id) && calls[i].id.value in settled) {
        assert !AnsweredBehind(s, k, calls[i].id);
        return false;
      }
    }
    b := true;
  }

  method FindLastGroup(s: seq<Message>) returns (g: Option<nat>)
    ensures g == LastGroup(s, |s|)
  {
    var k := |s|;
    while k > 0
      invariant 0 <= k <= |s|
      invariant LastGroup(s, |s|) == LastGroup(s, k)
    {
      k := k - 1;
      if Announcing(s[k]) {
        return Some(k);
      }
    }
    g := None;
  }

  method DropOpenGroup(s: seq<Message>) returns (r: seq<Message>)
    ensures r == WithoutOpenGroup(s)
  {
    var g := FindLastGroup(s);
    if g.None? {
      return s;
    }
    var settled := IsSettled(s, g.value);
    r := if settled then s else s[..g.value];
  }

  method SnapshotTail(messages: seq<Message>, max: nat) returns (r: seq<Message>)
    ensures r == Tail(messages, max)
  {
    var t := NonSystem(messages);
    var k := LastStart(t, max);
    ghost var start := k;
    while k < |t| && t[k].Result?
      invariant start <= k <= |t| && BehindResults(t, start) == BehindResults(t, k)
    {
      k := k + 1;
    }
    var whole := DropOpenGroup(t[k..]);
    r := Snapshots(whole);
  }

  lemma {:induction false} WellFormedNonSystem(ms: seq<Message>) returns (k: nat)
    requires WellFormed(ms)
    ensures Boundary(ms, k) && NonSystem(ms) == ms[k..]
  {
    k := if ms != [] && ms[0].System? then 1 else 0;
    FrontIsBoundary(ms, k);
    NonSystemOf(ms[k..]);
  }

  lemma {:induction false} WellFormedIsSettled(s: seq<Message>)
    requires WellFormed(s)
    ensures WithoutOpenGroup(s) == s
  {
    var g := LastGroup(s, |s|);
    if g.Some? {
      var k := g.value;
      forall i: nat | i < |CallsOf(s[k])|
        ensures AnsweredBehind(s, k, CallsOf(s[k])[i].id)
      {
        assert CallIn(s, k, i) && Good(CallAt(s, k, i)) && AnsweredInPlace(s, k, i);
        assert Answers(s[k + 1 + i], CallAt(s, k, i).id.value);
      }
    }
  }

  /** The stored tail of a well-formed payload is well-formed, and nothing but the window
      and its leading results was dropped. */
  lemma {:induction false} TailIsWellFormed(ms: seq<Message>, max: nat)
    requires WellFormed(ms)
    ensures WellFormed(Tail(ms, max))
    ensures exists k: nat :: Boundary(ms, k) && Tail(ms, max) == Snapshots(ms[k..])
  {
    var k := WellFormedNonSystem(ms);
    var t := NonSystem(ms);
    var j := BehindResults(t, LastStart(t, max));
    assert Boundary(ms, k + j) && t[j..] == ms[k + j..];
    SuffixWellFormed(ms, k + j);
    WellFormedIsSettled(ms[k + j..]);
    SnapshotsWellFormed(ms[k + j..]);
  }

  /** A well-formed payload followed by a group that still lacks a result. */
  ghost predicate OpenPayload(a: seq<Message>, h: Message, rs: seq<Message>) {
    && WellFormed(a) && Announcing(h)
    && (forall q :: 0 <= q < |rs| ==> rs[q].Result?)
    && !SettledAt([h] + rs, 0)
  }

  lemma {:induction false} LastGroupIsOpen(b: seq<Message>, h: Message, rs: seq<Message>, n: nat)
    requires Announcing(h) && (forall q :: 0 <= q < |rs| ==> rs[q].Result?) && |b| < n <= |b| + 1 + |rs|
    ensures LastGroup(b + ([h] + rs), n) == Some(|b|)
  {
    if n > |b| + 1 {
      assert (b + ([h] + rs))[n - 1] == rs[n - 2 - |b|];
      LastGroupIsOpen(b, h, rs, n - 1);
    }
  }

  lemma {:induction false} SettledThere(b: seq<Message>, g: seq<Message>)
    requires g != [] && SettledAt(b + g, |b|)
    ensures SettledAt(g, 0)
  {
    var s := b + g;
    assert s[|b|] == g[0];
    forall i: nat | i < |CallsOf(g[0])|
      ensures AnsweredBehind(g, 0, CallsOf(g[0])[i].id)
    {
      assert AnsweredBehind(s, |b|, CallsOf(s[|b|])[i].id);
      var q: nat :| |b| < q < |s| && Answers(s[q], CallsOf(g[0])[i].id.value);
      assert g[q - |b|] == s[q];
    }
  }

  lemma {:induction false} OpenGroupIsDropped(b: seq<Message>, h: Message, rs: seq<Message>)
    requires Announcing(h) && (forall q :: 0 <= q < |rs| ==> rs[q].Result?) && !SettledAt([h] + rs, 0)
    ensures WithoutOpenGroup(b + ([h] + rs)) == b
  {
    var g := [h] + rs;
    var s := b + g;
    LastGroupIsOpen(b, h, rs, |s|);
    assert s[|b|] == h && s[..|b|] == b;
    if SettledAt(s, |b|) {
      SettledThere(b, g);
    }
  }

  lemma {:induction false} NonSystemConcat(a: seq<Message>, b: seq<Message>)
    requires forall q :: 0 <= q < |b| ==> !b[q].System?
    ensures NonSystem(a + b) == NonSystem(a) + b
  {
    if a == [] {
      NonSystemOf(b);
      assert a + b == b;
    } else {
      assert (a + b)[1..] == a[1..] + b;
      NonSystemConcat(a[1..], b);
    }
  }

  /** What remains of a window over an open payload. */
  lemma {:induction false} OpenWindow(t: seq<Message>, h: Message, rs: seq<Message>, j: nat) returns (k: nat)
    requires Announcing(h) && (forall q :: 0 <= q < |rs| ==> rs[q].Result?) && !SettledAt([h] + rs, 0)
    requires Boundary(t + ([h] + rs), j)
    ensures Boundary(t, k) && WithoutOpenGroup((t + ([h] + rs))[j..]) == t[k..]
  {
    var g := [h] + rs;
    var s := t + g;
    if j <= |t| {
      k := j;
      assert s[j..] == t[j..] + g;
      OpenGroupIsDropped(t[j..], h, rs);
    } else {
      k := |t|;
      assert forall q :: |t| < q < |s| ==> s[q] == rs[q - |t| - 1];
      assert s[j..] == [] && t[k..] == [] && LastGroup([], 0) == None;
    }
  }

  /** The window of the tail over a payload whose messages other than system ones are s. */
  lemma {:induction false} Window(ms: seq<Message>, s: seq<Message>, max: nat) returns (j: nat)
    requires NonSystem(ms) == s
    ensures j == BehindResults(s, LastStart(s, max)) && Boundary(s, j)
    ensures Tail(ms, max) == Snapshots(WithoutOpenGroup(s[j..]))
  {
    j := BehindResults(s, LastStart(s, max));
  }

  lemma {:induction false} BehindBoundary(a: seq<Message>, at: nat, j: nat)
    requires at <= |a| && Boundary(a[at..], j)
    ensures Boundary(a, at + j) && a[at..][j..] == a[at + j..]
  {}

  lemma {:induction false} OpenTail(a: seq<Message>, h: Message, rs: seq<Message>, max: nat) returns (k: nat)
    requires OpenPayload(a, h, rs)
    ensures Boundary(a, k) && Tail(a + ([h] + rs), max) == Snapshots(a[k..])
  {
    var at := WellFormedNonSystem(a);
    var t := a[at..];
    NonSystemConcat(a, [h] + rs);
    var w := Window(a + ([h] + rs), t + ([h] + rs), max);
    var j := OpenWindow(t, h, rs, w);
    k := at + j;
    BehindBoundary(a, at, j);
  }

  /** Even with an unanswered last group the stored tail is well-formed: that group is
      dropped whole, with every result it already has. */
  lemma {:induction false} OpenTailIsWellFormed(a: seq<Message>, h: Message, rs: seq<Message>, max: nat)
    requires OpenPayload(a, h, rs)
    ensures WellFormed(Tail(a + ([h] + rs), max))
    ensures exists k: nat :: Boundary(a, k) && Tail(a + ([h] + rs), max) == Snapshots(a[k..])
  {
    var k := OpenTail(a, h, rs, max);
    SuffixWellFormed(a, k);
    SnapshotsWellFormed(a[k..]);
  }

  // The emergency rebase

  /** The latest group and at most 12 messages behind it, or the last message. */
  function Latest(ms: seq<Message>): seq<Message> {
    match LastGroup(ms, |ms|)
    case Some(start) =>
      var end := BehindResults(ms, start + 1);
      ms[start..end] + ms[end..][LastStart(ms[end..], TAIL_MESSAGES)..]
    case None =>
      var rest := NonSystem(ms);
      rest[LastStart(rest, 1)..]
  }

  /** _emergency_agent_context. */
  function Rebased(ms: seq<Message>, system: Content, note: string): seq<Message> {
    Validate([System(system), User(Words(note))] + Clipped(Snapshots(Latest(ms)), 160)).messages
  }

  lemma {:induction false} NoGroupBehind(s: seq<Message>, n: nat, p: nat)
    requires n <= |s| && p < n && (LastGroup(s, n).Some? ==> LastGroup(s, n).value < p)
    ensures !Announcing(s[p])
  {
    if p < n - 1 {
      NoGroupBehind(s, n - 1, p);
    }
  }

  /** Behind the last group no result stands alone. */
  lemma {:induction false} NoResultBehind(ms: seq<Message>, end: nat, q: nat)
    requires WellFormed(ms) && Boundary(ms, end) && end <= q < |ms|
    requires forall p :: end <= p < |ms| ==> !Announcing(ms[p])
    ensures !ms[q].Result?
  {
    var b := ms[end..];
    assert forall p :: 0 <= p < |b| ==> !Announcing(b[p]) && b[p] == ms[end + p];
    if b[q - end].Result? {
      SuffixWellFormed(ms, end);
      var p := ResultHasHeader(b, q - end);
    }
  }

  lemma {:induction false} LatestGroup(ms: seq<Message>, start: nat) returns (j: nat, k: nat)
    requires WellFormed(ms) && LastGroup(ms, |ms|) == Some(start)
    ensures start < j <= k && Boundary(ms, j) && Boundary(ms, k) && Latest(ms) == ms[start..j] + ms[k..]
  {
    j := BehindResults(ms, start + 1);
    var rest := ms[j..];
    var l := LastStart(rest, TAIL_MESSAGES);
    k := j + l;
    assert rest[l..] == ms[k..];
    forall p: nat | start < p < |ms|
      ensures !Announcing(ms[p])
    {
      NoGroupBehind(ms, |ms|, p);
    }
    if k < |ms| {
      NoResultBehind(ms, j, k);
    }
  }

  lemma {:induction false} LatestMessage(ms: seq<Message>) returns (k: nat)
    requires WellFormed(ms) && LastGroup(ms, |ms|) == None
    ensures Boundary(ms, k) && Latest(ms) == ms[k..] && (k < |ms| ==> !ms[k].System?)
  {
    var at := WellFormedNonSystem(ms);
    var rest := ms[at..];
    var l := LastStart(rest, 1);
    k := at + l;
    assert rest[l..] == ms[k..];
    forall p: nat | p < |ms|
      ensures !Announcing(ms[p])
    {
      NoGroupBehind(ms, |ms|, p);
    }
    if k < |ms| {
      NoResultBehind(ms, 0, k);
      NonSystemFree(ms);
      assert rest[l] == ms[k];
    }
  }

  lemma {:induction false} MiddleWellFormed(ms: seq<Message>, start: nat, j: nat, k: nat)
    requires WellFormed(ms) && start < j <= k && Boundary(ms, start) && Boundary(ms, j) && Boundary(ms, k)
    ensures WellFormed(ms[start..j] + ms[k..])
  {
    var b := ms[start..];
    SuffixWellFormed(ms, start);
    SpliceWellFormed(b, j - start, k - start);
    assert b[..j - start] == ms[start..j] && b[k - start..] == ms[k..];
  }

  lemma {:induction false} LatestIsWellFormed(ms: seq<Message>)
    requires WellFormed(ms)
    ensures WellFormed(Latest(ms)) && (Latest(ms) == [] || !Latest(ms)[0].System?)
  {
    var g := LastGroup(ms, |ms|);
    if g.Some? {
      var j, k := LatestGroup(ms, g.value);
      MiddleWellFormed(ms, g.value, j, k);
    } else {
      var k := LatestMessage(ms);
      SuffixWellFormed(ms, k);
    }
  }

  lemma {:induction false} NonSystemFree(ms: seq<Message>)
    ensures forall q :: 0 <= q < |NonSystem(ms)| ==> !NonSystem(ms)[q].System?
  {
    if ms != [] {
      NonSystemFree(ms[1..]);
    }
  }

  lemma {:induction false} LatestRewritten(ms: seq<Message>) returns (c: seq<Message>)
    requires WellFormed(ms)
    ensures c == Clipped(Snapshots(Latest(ms)), 160) == ClipResults(Snapshots(Latest(ms)), 160, |Latest(ms)|)
    ensures WellFormed(c) && (c == [] || !c[0].System?)
  {
    var s := Snapshots(Latest(ms));
    LatestIsWellFormed(ms);
    SnapshotsWellFormed(Latest(ms));
    ClippedIsWellFormed(s, 160);
    c := Clipped(s, 160);
    if c != [] {
      SnapshotKeepsShape(Latest(ms)[0]);
      assert SameShape(s[0], c[0]);
    }
  }

  /** The emergency context is well-formed, ends in the whole latest group and what
      follows it, and leaves the validator nothing to do. */
  lemma {:induction false} RebasedIsWellFormed(ms: seq<Message>, system: Content, note: string)
    requires WellFormed(ms)
    ensures WellFormed(Rebased(ms, system, note))
    ensures Rebased(ms, system, note) ==
            [System(system), User(Words(note))] + ClipResults(Snapshots(Latest(ms)), 160, |Latest(ms)|)
  {
    var c := LatestRewritten(ms);
    BehindTwo(system, note, c);
    AcceptedIffWellFormed([System(system), User(Words(note))] + c);
  }
}
