/** What is left of a well-formed payload by each cut, message by message. */
module CutAnswers {
  import opened Text
  import opened ChatPayload
  import opened WellFormedPayload
  import opened ContextCuts
  import opened SnapshotTail

  // The character bound

  /** The size of a payload's first part and of its last n groups. */
  ghost predicate KeepsGroups(ms: seq<Message>, n: nat, first: nat, start: nat) {
    && first <= start < |ms| && Announcing(ms[first]) && Announcing(ms[start])
    && (forall p :: 0 <= p < first ==> !Announcing(ms[p]))
    && GroupCount(ms[start..]) == n
  }

  lemma {:induction false} FirstGroup(ms: seq<Message>, n: nat, p: nat)
    requires p < n <= |ms| && Announcing(ms[p])
    ensures |GroupIndices(ms, n)| > 0 && GroupIndices(ms, n)[0] <= p
  {
    GroupIndicesAll(ms, n, p);
    var g := GroupIndices(ms, n);
    var j: nat :| j < |g| && g[j] == p;
    GroupsInOrder(ms, n, j);
  }

  lemma {:induction false} NoneInFront(ms: seq<Message>, first: nat)
    requires GroupCount(ms) > 0 && first == Groups(ms)[0] && first <= |ms|
    ensures forall p :: 0 <= p < first ==> !Announcing(ms[p])
  {
    forall p | 0 <= p < first
      ensures !Announcing(ms[p])
    {
      if Announcing(ms[p]) {
        FirstGroup(ms, |ms|, p);
      }
    }
  }

  lemma {:induction false} GroupsFrom(ms: seq<Message>, j: nat) returns (start: nat)
    requires j < GroupCount(ms)
    ensures start == Groups(ms)[j] && start < |ms| && Announcing(ms[start])
    ensures GroupCount(ms[start..]) == GroupCount(ms) - j
  {
    GroupIndicesAt(ms, |ms|);
    start := Groups(ms)[j];
    GroupIndicesSplit(ms, start, |ms|);
    GroupIndicesBefore(ms, |ms|, j);
  }

  lemma {:induction false} CutDownIs(ms: seq<Message>, n: nat, first: nat, start: nat)
    requires 0 < n <= GroupCount(ms) && first == Groups(ms)[0] && start == Groups(ms)[GroupCount(ms) - n]
    requires first <= |ms| && start <= |ms|
    ensures KeptSize(ms, n) == Size(ms[..first]) + Size(ms[start..])
    ensures CutDown(ms, n) == ms[..first] + [DroppedNotice(GroupCount(ms) - n, n)] + ms[start..]
  {}

  lemma {:induction false} GroupsKeptAt(ms: seq<Message>, n: nat) returns (first: nat, start: nat)
    requires 0 < n <= GroupCount(ms)
    ensures KeepsGroups(ms, n, first, start)
    ensures KeptSize(ms, n) == Size(ms[..first]) + Size(ms[start..])
    ensures CutDown(ms, n) == ms[..first] + [DroppedNotice(GroupCount(ms) - n, n)] + ms[start..]
  {
    first := GroupsFrom(ms, 0);
    start := GroupsFrom(ms, GroupCount(ms) - n);
    GroupsInOrder(ms, |ms|, GroupCount(ms) - n);
    NoneInFront(ms, first);
    CutDownIs(ms, n, first, start);
  }

  lemma {:induction false} CharsPrefix(ms: seq<Message>, k: nat, n: nat)
    requires n <= k <= |ms|
    ensures Chars(ms[..k], n) == Chars(ms, n)
  {
    if n > 0 {
      CharsPrefix(ms, k, n - 1);
    }
  }

  lemma {:induction false} CharsSplit(ms: seq<Message>, k: nat, n: nat)
    requires k <= n <= |ms|
    ensures Chars(ms, n) == Chars(ms, k) + Chars(ms[k..], n - k)
    decreases n
  {
    if k < n {
      CharsSplit(ms, k, n - 1);
      assert ms[k..][n - k - 1] == ms[n - 1];
    }
  }

  /** Keeping every group keeps everything. */
  lemma {:induction false} AllGroupsSize(ms: seq<Message>)
    requires GroupCount(ms) > 0
    ensures KeptSize(ms, GroupCount(ms)) == Size(ms)
  {
    GroupIndicesAt(ms, |ms|);
    var k := Groups(ms)[0];
    CharsPrefix(ms, k, k);
    CharsSplit(ms, k, |ms|);
  }

  /** No larger number of groups that is allowed would fit. */
  ghost predicate NoMoreFit(ms: seq<Message>, max: nat, keep: nat, n: nat) {
    forall j: nat, a: nat, b: nat {:trigger KeepsGroups(ms, j, a, b)} ::
      n < j <= GroupCount(ms) && j <= keep && KeepsGroups(ms, j, a, b) ==> Size(ms[..a]) + Size(ms[b..]) > max
  }

  /** A payload within the limit, or of a single group, stays as it is. */
  lemma {:induction false} BoundLeaves(ms: seq<Message>, max: nat, keep: nat)
    requires Size(ms) <= max || GroupCount(ms) <= 1
    ensures Bounded(ms, max, keep) == ms
  {}

  /** Of any other the first part, a notice that counts, and the last groups are left: at
      least one, fewer than there were and no more than configured; they fit unless it is a
      single one, and no larger number that is allowed would fit. */
  lemma {:induction false} BoundSays(ms: seq<Message>, max: nat, keep: nat) returns (n: nat, first: nat, start: nat)
    requires WellFormed(ms) && Size(ms) > max && GroupCount(ms) > 1
    ensures 1 <= n < GroupCount(ms) && (n <= keep || n == 1) && KeepsGroups(ms, n, first, start)
    ensures Bounded(ms, max, keep) == ms[..first] + [DroppedNotice(GroupCount(ms) - n, n)] + ms[start..]
    ensures (n == 1 || Size(ms[..first]) + Size(ms[start..]) <= max) && NoMoreFit(ms, max, keep, n)
  {
    n := BoundKeeps(ms, max, keep);
    BoundIsSmaller(ms, max, keep);
    first, start := GroupsKeptAt(ms, n);
    CutsDown(ms, max, keep);
    BoundFits(ms, max, keep);
    MoreIsTooMuch(ms, max, keep);
  }

  lemma {:induction false} MoreIsTooMuch(ms: seq<Message>, max: nat, keep: nat)
    requires Size(ms) > max && GroupCount(ms) > 1
    ensures NoMoreFit(ms, max, keep, BoundKeeps(ms, max, keep))
  {
    var n := BoundKeeps(ms, max, keep);
    forall j: nat, a: nat, b: nat | n < j <= GroupCount(ms) && j <= keep && KeepsGroups(ms, j, a, b)
      ensures Size(ms[..a]) + Size(ms[b..]) > max
    {
      LargerIsTooMuch(ms, max, keep, j, a, b);
    }
  }

  lemma {:induction false} BoundIsSmaller(ms: seq<Message>, max: nat, keep: nat)
    requires Size(ms) > max && GroupCount(ms) > 1
    ensures 1 <= BoundKeeps(ms, max, keep) < GroupCount(ms)
    ensures BoundKeeps(ms, max, keep) <= keep || BoundKeeps(ms, max, keep) == 1
  {
    AllGroupsSize(ms);
    if keep >= MIN_RETAINED && BoundKeeps(ms, max, keep) > MIN_RETAINED {
      GroupsKeptFits(ms, max, Least(GroupCount(ms), keep));
    }
  }

  lemma {:induction false} CutsDown(ms: seq<Message>, max: nat, keep: nat)
    requires WellFormed(ms) && Size(ms) > max && GroupCount(ms) > 1
    ensures Bounded(ms, max, keep) == CutDown(ms, BoundKeeps(ms, max, keep))
  {
    BoundIsSmaller(ms, max, keep);
    CutDownWellFormed(ms, BoundKeeps(ms, max, keep));
    AcceptedIffWellFormed(CutDown(ms, BoundKeeps(ms, max, keep)));
  }

  lemma {:induction false} BoundFits(ms: seq<Message>, max: nat, keep: nat)
    requires Size(ms) > max && GroupCount(ms) > 1
    ensures BoundKeeps(ms, max, keep) == 1 || KeptSize(ms, BoundKeeps(ms, max, keep)) <= max
  {
    if keep >= MIN_RETAINED && BoundKeeps(ms, max, keep) > MIN_RETAINED {
      GroupsKeptFits(ms, max, Least(GroupCount(ms), keep));
    }
  }

  /** The places are those of the last j groups. */
  lemma {:induction false} PlacesAre(ms: seq<Message>, j: nat, a: nat, b: nat)
    requires 0 < j <= GroupCount(ms) && KeepsGroups(ms, j, a, b)
    ensures KeptSize(ms, j) == Size(ms[..a]) + Size(ms[b..])
  {
    var first, start := GroupsKeptAt(ms, j);
    assert first == a;
    SameStart(ms, j, start, b);
  }

  lemma {:induction false} SameStart(ms: seq<Message>, j: nat, a: nat, b: nat)
    requires a < |ms| && b < |ms| && Announcing(ms[a]) && Announcing(ms[b])
    requires GroupCount(ms[a..]) == j && GroupCount(ms[b..]) == j
    ensures a == b
  {
    if a < b {
      FewerBehind(ms, a, b);
    } else if b < a {
      FewerBehind(ms, b, a);
    }
  }

  lemma {:induction false} Sliced(ms: seq<Message>, a: nat, b: nat) returns (s: seq<Message>)
    requires a <= b <= |ms|
    ensures s == ms[a..] && |s| == |ms| - a && s[b - a..] == ms[b..] && (a < |ms| ==> s[0] == ms[a])
  {
    s := ms[a..];
  }

  lemma {:induction false} MoreInAll(s: seq<Message>, k: nat)
    requires 0 < k <= |s| && Announcing(s[0])
    ensures GroupCount(s) > GroupCount(s[k..])
  {
    GroupIndicesSplit(s, k, |s|);
    FirstGroup(s, k, 0);
  }

  lemma {:induction false} FewerBehind(ms: seq<Message>, a: nat, b: nat)
    requires a < b <= |ms| && Announcing(ms[a])
    ensures GroupCount(ms[a..]) > GroupCount(ms[b..])
  {
    var s := Sliced(ms, a, b);
    MoreInAll(s, b - a);
  }

  lemma {:induction false} LargerIsTooMuch(ms: seq<Message>, max: nat, keep: nat, j: nat, a: nat, b: nat)
    requires Size(ms) > max && GroupCount(ms) > 1
    requires BoundKeeps(ms, max, keep) < j <= GroupCount(ms) && j <= keep && KeepsGroups(ms, j, a, b)
    ensures Size(ms[..a]) + Size(ms[b..]) > max
  {
    GroupsKeptIsLargest(ms, max, Least(GroupCount(ms), keep), j);
    PlacesAre(ms, j, a, b);
  }

  // Clipping

  /** A clipped text is the stripped text if that fits; else its beginning, marked where
      there is room for a mark, and never longer than allowed. */
  lemma {:induction false} ClipSays(text: string, n: nat) returns (k: nat)
    ensures k <= |Strip(text)| && |Clip(text, n)| <= n
    ensures |Strip(text)| <= n ==> Clip(text, n) == Strip(text)
    ensures |Strip(text)| > n && n <= 8 ==> k == n && Clip(text, n) == Strip(text)[..k]
    ensures |Strip(text)| > n > 8 ==>
      k <= n - 8 && Clip(text, n) == Strip(text)[..k] + " ...[생략]" && forall i :: k <= i < n - 8 ==>
        IsSpace(Strip(text)[i])
  {
    var t := Strip(text);
    k := if |t| <= n then |t| else n;
    if |t| > n > 8 {
      k := ClipLong(text, t, n);
    }
  }

  lemma {:induction false} ClipLong(text: string, t: string, n: nat) returns (k: nat)
    requires t == Strip(text) && |t| > n > 8
    ensures k <= n - 8 && Clip(text, n) == t[..k] + " ...[생략]" && forall i :: k <= i < n - 8 ==> IsSpace(t[i])
  {
    var head := t[..n - 8];
    RStripSays(head);
    k := |RStrip(head)|;
    assert Clip(text, n) == RStrip(head) + " ...[생략]";
    assert head[..k] == t[..k];
  }

  lemma {:induction false} RStripSays(s: string)
    ensures |RStrip(s)| <= |s| && RStrip(s) == s[..|RStrip(s)|]
    ensures forall i :: |RStrip(s)| <= i < |s| ==> IsSpace(s[i])
  {
    if s != "" && IsSpace(s[|s| - 1]) {
      RStripSays(s[..|s| - 1]);
    }
  }

  /** Clipping changes only result texts that are too long, and these only in their text. */
  lemma {:induction false} ClippedSays(ms: seq<Message>, n: nat, q: nat)
    requires WellFormed(ms) && q < |ms|
    ensures |Clipped(ms, n)| == |ms|
    ensures
      var m, c := ms[q], Clipped(ms, n)[q];
      if m.Result? && |Shown(m.content)| > n
      then c == Result(m.callId, m.name, Words(Clip(Shown(m.content), n))) else c == m
  {
    ClippedIsWellFormed(ms, n);
  }

  // The stored tail

  /** Where the window of a tail starts: behind a leading system message, and with at most
      `max` messages, if it is limited at all. */
  function WindowStart(ms: seq<Message>, max: nat): (k: nat)
    ensures k <= |ms|
  {
    var front := if ms != [] && ms[0].System? then 1 else 0;
    if max == 0 || |ms| - front <= max then front else |ms| - max
  }

  /** The stored tail of a well-formed payload: what its window holds behind leading results,
      each message as its bounded record. */
  lemma {:induction false} TailSays(ms: seq<Message>, max: nat) returns (k: nat)
    requires WellFormed(ms)
    ensures WindowStart(ms, max) <= k <= |ms| && Tail(ms, max) == Snapshots(ms[k..])
    ensures (forall q :: WindowStart(ms, max) <= q < k ==> ms[q].Result?) && (k < |ms| ==> !ms[k].Result?)
  {
    var front := WellFormedNonSystem(ms);
    FrontIs(ms, front);
    var t := ms[front..];
    var j := Window(ms, t, max);
    WindowIs(ms, front, max);
    k := ResultsBetween(ms, front, LastStart(t, max), j);
    WholeSuffix(ms, k);
  }

  lemma {:induction false} WindowIs(ms: seq<Message>, front: nat, max: nat)
    requires front == (if ms != [] && ms[0].System? then 1 else 0)
    ensures front + LastStart(ms[front..], max) == WindowStart(ms, max)
  {}

  lemma {:induction false} ResultsBetween(ms: seq<Message>, front: nat, start: nat, j: nat) returns (k: nat)
    requires front <= |ms| && start <= |ms[front..]| && j == BehindResults(ms[front..], start)
    ensures k == front + j && k <= |ms| && Boundary(ms, k) && ms[front..][j..] == ms[k..]
    ensures forall q :: front + start <= q < k ==> ms[q].Result?
  {
    var t := Sliced(ms, front, front + j);
    k := front + j;
    assert k < |ms| ==> ms[k] == t[j];
    forall q | front + start <= q < k
      ensures ms[q].Result?
    {
      assert ms[q] == t[q - front];
    }
  }

  lemma {:induction false} WholeSuffix(ms: seq<Message>, k: nat)
    requires WellFormed(ms) && Boundary(ms, k)
    ensures WithoutOpenGroup(ms[k..]) == ms[k..]
  {
    SuffixWellFormed(ms, k);
    WellFormedIsSettled(ms[k..]);
  }

  lemma {:induction false} FrontIs(ms: seq<Message>, k: nat)
    requires WellFormed(ms) && k <= |ms| && NonSystem(ms) == ms[k..]
    ensures k == if ms != [] && ms[0].System? then 1 else 0
  {
    if ms == [] || !ms[0].System? {
      NonSystemOf(ms);
      assert |ms| == |ms[k..]|;
    } else {
      NonSystemOf(ms[1..]);
      assert |NonSystem(ms)| == |ms| - 1;
    }
  }

  /** A bounded record keeps role, ids and names; its texts are clipped to 2000 characters. */
  lemma {:induction false} RecordSays(m: Message, i: nat)
    ensures var r := Snapshot(m);
      && (m.System? <==> r.System?) && (m.User? <==> r.User?) && (m.Assistant? <==> r.Assistant?)
      && (m.Result? <==> r.Result?) && (m.Other? ==> r.Other? && r.role == m.role)
      && Shown(r.content) == (if m.content == Nothing then "" else Clip(Shown(m.content), 2000))
      && (m.Result? ==> r.name == m.name && (Named(m.callId) ==> r.callId == m.callId))
      && (m.Assistant? ==> |r.calls| == |m.calls|)
      && (m.Assistant? && i < |m.calls| && Named(m.calls[i].id) && Named(m.calls[i].name) ==>
            r.calls[i] == Call(m.calls[i].id, m.calls[i].name, Plain(Clip(Written(m.calls[i].arguments), 2000)), false))
  {}

  function Written(a: Arguments): string {
    match a
    case Plain(t) => t
    case Object(j) => j
  }

  // The emergency context

  lemma {:induction false} LastGroupIs(ms: seq<Message>)
    ensures LastGroup(ms, |ms|).Some? <==> exists p :: 0 <= p < |ms| && Announcing(ms[p])
    ensures LastGroup(ms, |ms|).Some? ==> forall p :: LastGroup(ms, |ms|).value < p < |ms| ==> !Announcing(ms[p])
  {
    var g := LastGroup(ms, |ms|);
    forall p: nat | p < |ms| && (g.Some? ==> g.value < p)
      ensures !Announcing(ms[p])
    {
      NoGroupBehind(ms, |ms|, p);
    }
  }

  lemma {:induction false} LastOf(b: seq<Message>, n: nat)
    requires n > 0
    ensures b[LastStart(b, n)..] == if |b| <= n then b else b[|b| - n..]
  {}

  lemma {:induction false} SuffixOf(ms: seq<Message>, end: nat)
    requires end <= |ms|
    ensures (if |ms[end..]| <= 12 then ms[end..] else ms[end..][|ms[end..]| - 12..])
            == ms[if |ms| - end <= 12 then end else |ms| - 12..]
  {}

  lemma {:induction false} LatestIs(ms: seq<Message>, start: nat) returns (end: nat)
    requires LastGroup(ms, |ms|) == Some(start)
    ensures start < end <= |ms| && end == BehindResults(ms, start + 1)
    ensures Latest(ms) == ms[start..end] + ms[end..][LastStart(ms[end..], TAIL_MESSAGES)..]
  {
    end := BehindResults(ms, start + 1);
  }

  /** The latest group with all its results and at most twelve messages behind it... */
  lemma {:induction false} LatestSays(ms: seq<Message>) returns (start: nat, end: nat)
    requires exists p :: 0 <= p < |ms| && Announcing(ms[p])
    ensures start < end <= |ms| && Announcing(ms[start]) && (forall p :: start < p < |ms| ==> !Announcing(ms[p]))
    ensures (forall q :: start < q < end ==> ms[q].Result?) && (end < |ms| ==> !ms[end].Result?)
    ensures Latest(ms) == ms[start..end] + ms[if |ms| - end <= 12 then end else |ms| - 12..]
  {
    LastGroupIs(ms);
    start := LastGroup(ms, |ms|).value;
    end := LatestIs(ms, start);
    LastOf(ms[end..], TAIL_MESSAGES);
    SuffixOf(ms, end);
  }

  /** ... or, without any group, the last message that is no system message. */
  lemma {:induction false} LatestAlone(ms: seq<Message>)
    requires forall p :: 0 <= p < |ms| ==> !Announcing(ms[p])
    ensures var rest := NonSystem(ms); Latest(ms) == if rest == [] then [] else [rest[|rest| - 1]]
  {
    var rest := NonSystem(ms);
    LastGroupIs(ms);
    LastOf(rest, 1);
    if rest != [] {
      assert rest[|rest| - 1..] == [rest[|rest| - 1]];
    }
  }

  lemma {:induction false} BehindTwoAt(a: Message, b: Message, c: seq<Message>, q: nat)
    requires q < |c|
    ensures ([a, b] + c)[q + 2] == c[q]
  {}

  /** The emergency context of a well-formed payload: system message, note, and that part,
      recorded and with its result texts clipped to 160 characters. */
  lemma {:induction false} RebasedSays(ms: seq<Message>, system: Content, note: string, q: nat)
    returns (r: seq<Message>, l: seq<Message>)
    requires WellFormed(ms)
    ensures r == Rebased(ms, system, note) && l == Latest(ms) && |r| == |l| + 2
    ensures r[0] == System(system) && r[1] == User(Words(note))
    ensures q < |l| ==> r[q + 2] == ClipResult(Snapshot(l[q]), 160)
  {
    r, l := Rebased(ms, system, note), Latest(ms);
    var c := ClipResults(Snapshots(l), 160, |l|);
    RebasedIsWellFormed(ms, system, note);
    if q < |l| {
      BehindTwoAt(System(system), User(Words(note)), c, q);
    }
  }

  // The playbook block

  /** A block goes in as one assistant message behind a leading system message, or in front
      of everything; an empty one does not. */
  lemma {:induction false} BlockSays(ms: seq<Message>, block: string, q: nat)
    ensures block == "" ==> WithBlock(ms, block) == ms
    ensures block != "" ==>
      var r, at := WithBlock(ms, block), if ms != [] && ms[0].System? then 1 else 0;
      && |r| == |ms| + 1 && r[at] == Assistant(Words(block), [])
      && (q < at ==> r[q] == ms[q]) && (at <= q < |ms| ==> r[q + 1] == ms[q])
  {}
}
