/** What each stage of the preparation does to a well-formed conversation, and which output
    goes with the last draft. */
module BudgetAnswers {
  import opened Text
  import opened ChatPayload
  import opened WellFormedPayload
  import opened ContextCuts
  import opened SnapshotTail
  import opened CutAnswers
  import opened RequestBudget

  function Valid(messages: seq<Message>): seq<Message> { Validate(messages).messages }

  lemma {:induction false} DraftIsWellFormed(env: Env, messages: seq<Message>, existing: string, n: nat)
    returns (d: Draft)
    requires WellFormed(Valid(messages)) && n <= |Stages(env.resume)|
    ensures d == DraftAfter(env, messages, existing, n) && WellFormed(d.live)
  {
    d := DraftAfter(env, messages, existing, n);
    DraftIsSound(env, messages, existing, n);
  }

  /** The draft behind a stage. */
  lemma {:induction false} Behind(env: Env, messages: seq<Message>, existing: string, n: nat, stage: Stage)
    returns (before: Draft, after: Draft)
    requires WellFormed(Valid(messages)) && n < |Stages(env.resume)| && Stages(env.resume)[n] == stage
    ensures before == DraftAfter(env, messages, existing, n) && WellFormed(before.live)
    ensures after == DraftAfter(env, messages, existing, n + 1) && after == Staged(env, existing, before, stage)
  {
    before := DraftIsWellFormed(env, messages, existing, n);
    after := DraftAfter(env, messages, existing, n + 1);
  }

  // Compactions

  /** The live messages are the conversation under the summary. */
  ghost predicate Holds(env: Env, v: seq<Message>, d: Draft, summary: string) {
    v != [] && d.summary == summary && d.live == [System(env.render(summary))] + v[1..]
  }

  lemma {:induction false} FirstHolds(env: Env, messages: seq<Message>, existing: string)
    requires WellFormed(Valid(messages)) && Headed(Valid(messages))
    ensures Holds(env, Valid(messages), DraftAfter(env, messages, existing, 0), existing)
  {
    RerenderedIsWellFormed(Valid(messages), env.render(existing));
  }

  lemma {:induction false} SummarizedHolds(env: Env, v: seq<Message>, d: Draft, held: string, summary: string)
    requires Holds(env, v, d, held) && WellFormed(d.live)
    ensures Holds(env, v, Summarized(env, d, summary), summary)
  {
    assert Headed(d.live) && d.live[1..] == v[1..];
    if summary != d.summary {
      RerenderedIsWellFormed(d.live, env.render(summary));
    }
  }

  const LINES: seq<nat> := [6, 3, 0]
  const CHARS: seq<nat> := [1200, 800, 400]
  const ENTRIES: seq<nat> := [4, 2, 0]

  /** In a resumed run the first three stages put smaller and smaller forms of the given
      summary into the system message and change nothing else. */
  lemma {:induction false} CompactedDraft(env: Env, messages: seq<Message>, existing: string, k: nat)
    requires env.resume && WellFormed(Valid(messages)) && Headed(Valid(messages)) && k < 3
    ensures Holds(env, Valid(messages), DraftAfter(env, messages, existing, k + 1),
                  env.compact(existing, LINES[k], CHARS[k], ENTRIES[k]))
  {
    var held := existing;
    if k == 0 {
      FirstHolds(env, messages, existing);
    } else {
      CompactedDraft(env, messages, existing, k - 1);
      held := env.compact(existing, LINES[k - 1], CHARS[k - 1], ENTRIES[k - 1]);
    }
    var before, after := Behind(env, messages, existing, k, Compaction(LINES[k], CHARS[k], ENTRIES[k]));
    SummarizedHolds(env, Valid(messages), before, held, env.compact(existing, LINES[k], CHARS[k], ENTRIES[k]));
  }

  /** Behind the rollover it is the summary of the draft before that is made smaller. */
  lemma {:induction false} RecompactedDraft(env: Env, messages: seq<Message>, existing: string)
    returns (before: Draft, after: Draft)
    requires env.resume && WellFormed(Valid(messages))
    ensures before == DraftAfter(env, messages, existing, 4) && after == DraftAfter(env, messages, existing, 5)
    ensures var summary := env.compact(before.summary, 0, 400, 0);
      if summary == before.summary || !Headed(before.live) then after == before
      else Holds(env, before.live, after, summary)
  {
    before, after := Behind(env, messages, existing, 4, LastCompaction);
    var summary := env.compact(before.summary, 0, 400, 0);
    if summary != before.summary && Headed(before.live) {
      RerenderedIsWellFormed(before.live, env.render(summary));
    }
  }

  // Cutting the conversation

  function RollsAt(env: Env): nat { if env.resume then 3 else 0 }

  function BoundsAt(env: Env): nat { if env.resume then 5 else 1 }

  /** The rollover leaves the recent groups behind a fresh summary and a note. */
  lemma {:induction false} RolledDraft(env: Env, messages: seq<Message>, existing: string)
    returns (before: Draft, after: Draft)
    requires WellFormed(Valid(messages))
    ensures before == DraftAfter(env, messages, existing, RollsAt(env))
    ensures after == DraftAfter(env, messages, existing, RollsAt(env) + 1)
    ensures var k := RecentStart(before.live, env.keep);
      if k == |before.live| then after.live == before.live && after.summary == before.summary
      else
        && after.summary == env.rollover(before.live, before.summary)
        && after.live == [System(env.render(after.summary)), User(Words(env.rolloverNote))] + before.live[k..]
  {
    before, after := Behind(env, messages, existing, RollsAt(env), Rollover);
    if Rolls(env, before.live) {
      RolloverKeepsWholeGroups(before.live, env.keep, env.render(env.rollover(before.live, before.summary)),
                               env.rolloverNote);
    }
  }

  lemma {:induction false} BoundingLeaves(env: Env, existing: string, d: Draft) returns (live: seq<Message>)
    ensures live == Bounded(d.live, 0, env.keep)
    ensures var e := Staged(env, existing, d, Bounding); e.live == live && e.summary == d.summary
  {
    live := Bounded(d.live, 0, env.keep);
  }

  /** Of a payload are left its first part, a notice and its last n groups: one, or several
      without any text. */
  ghost predicate LastGroups(ms: seq<Message>, live: seq<Message>, n: nat, first: nat, start: nat) {
    && 1 <= n < GroupCount(ms) && KeepsGroups(ms, n, first, start)
    && live == ms[..first] + [DroppedNotice(GroupCount(ms) - n, n)] + ms[start..]
    && (n == 1 || Size(ms[..first]) + Size(ms[start..]) == 0)
  }

  lemma {:induction false} BoundedAtNothing(ms: seq<Message>, keep: nat, live: seq<Message>)
    returns (n: nat, first: nat, start: nat)
    requires WellFormed(ms) && live == Bounded(ms, 0, keep)
    ensures if Size(ms) == 0 || GroupCount(ms) <= 1 then live == ms else LastGroups(ms, live, n, first, start)
  {
    n, first, start := 0, 0, 0;
    if Size(ms) > 0 && GroupCount(ms) > 1 {
      n, first, start := BoundSays(ms, 0, keep);
    } else {
      BoundLeaves(ms, 0, keep);
    }
  }

  /** Then all but the last groups go. */
  lemma {:induction false} BoundedDraft(env: Env, messages: seq<Message>, existing: string)
    returns (before: Draft, after: Draft, n: nat, first: nat, start: nat)
    requires WellFormed(Valid(messages))
    ensures before == DraftAfter(env, messages, existing, BoundsAt(env))
    ensures after == DraftAfter(env, messages, existing, BoundsAt(env) + 1) && after.summary == before.summary
    ensures if Size(before.live) == 0 || GroupCount(before.live) <= 1 then after.live == before.live
            else LastGroups(before.live, after.live, n, first, start)
  {
    before, after := Behind(env, messages, existing, BoundsAt(env), Bounding);
    var live := BoundingLeaves(env, existing, before);
    n, first, start := BoundedAtNothing(before.live, env.keep, live);
  }

  const RESULTS: seq<nat> := [1000, 400, 160]

  lemma {:induction false} ClipStage(env: Env, i: nat) returns (n: nat)
    requires i < 3
    ensures n == BoundsAt(env) + 1 + i && n < |Stages(env.resume)| && Stages(env.resume)[n] == Clipping(RESULTS[i])
  {
    n := BoundsAt(env) + 1 + i;
  }

  lemma {:induction false} ClippingLeaves(env: Env, existing: string, d: Draft, n: nat) returns (live: seq<Message>)
    ensures live == Clipped(d.live, n)
    ensures var e := Staged(env, existing, d, Clipping(n)); e.live == live && e.summary == d.summary
  {
    live := Clipped(d.live, n);
  }

  lemma {:induction false} SameLength(ms: seq<Message>, n: nat, live: seq<Message>)
    requires WellFormed(ms) && live == Clipped(ms, n)
    ensures |live| == |ms|
  {
    ClippedIsWellFormed(ms, n);
  }

  /** At last the result texts are clipped, shorter and shorter. */
  lemma {:induction false} ClippedDraft(env: Env, messages: seq<Message>, existing: string, i: nat, q: nat)
    returns (before: Draft, after: Draft)
    requires WellFormed(Valid(messages)) && i < 3
    ensures before == DraftAfter(env, messages, existing, BoundsAt(env) + 1 + i)
    ensures after == DraftAfter(env, messages, existing, BoundsAt(env) + 2 + i) && after.summary == before.summary
    ensures |after.live| == |before.live|
    ensures q < |before.live| ==>
      var m := before.live[q];
      after.live[q] == if m.Result? && |Shown(m.content)| > RESULTS[i]
                       then Result(m.callId, m.name, Words(Clip(Shown(m.content), RESULTS[i]))) else m
  {
    var n := ClipStage(env, i);
    before, after := Behind(env, messages, existing, n, Clipping(RESULTS[i]));
    var live := ClippingLeaves(env, existing, before, RESULTS[i]);
    SameLength(before.live, RESULTS[i], live);
    if q < |before.live| {
      ClippedSays(before.live, RESULTS[i], q);
    }
  }

  /** So no result of the last draft is longer than 160 characters. */
  lemma {:induction false} LastDraftIsTrimmed(env: Env, messages: seq<Message>, existing: string, q: nat)
    returns (d: Draft)
    requires WellFormed(Valid(messages))
    ensures d == DraftAfter(env, messages, existing, |Stages(env.resume)|)
    ensures q < |d.live| && d.live[q].Result? ==> |Shown(d.live[q].content)| <= 160
  {
    var before;
    before, d := ClippedDraft(env, messages, existing, 2, q);
  }

  // The last draft

  /** A request sent for these messages, with their count. */
  predicate SentWith(r: Prepared, live: seq<Message>, payload: seq<Message>, summary: string, input: nat, output: int) {
    && r.Sent? && r.messages == Valid(live) && r.payload == Valid(payload) && r.summary == summary
    && r.input == input && r.output == output
  }

  /** The requested output, or less if less is left of the window. */
  function Output(env: Env, input: nat): int {
    var available := env.limit - 1280 - input;
    if env.requested <= available then env.requested else available
  }

  /** A draft over budget behind all stages is sent with what it leaves of the output, if
      these are 512 tokens. */
  lemma {:induction false} SmallerOutput(env: Env, d: Draft)
    requires env.limit - 1280 - d.input >= 512
    ensures SentWith(Last(env, d), d.live, d.payload, d.summary, d.input, Output(env, d.input))
  {}

  lemma {:induction false} RebaseIs(env: Env, d: Draft) returns (e: Draft)
    ensures e == Rebase(env, d) && e.live == Emergency(env, d.live, d.summary) && e.payload == Build(env, e.live)
    ensures e.summary == d.summary && e.input == env.counter(d.calls, e.payload)
  {
    e := Rebase(env, d);
  }

  /** Otherwise its emergency context is counted: it is sent with what it leaves, or with the
      requested output within the budget; or the request is refused. */
  lemma {:induction false} EmergencyOutput(env: Env, d: Draft)
    returns (live: seq<Message>, payload: seq<Message>, n: nat)
    requires env.limit - 1280 - d.input < 512
    ensures live == Emergency(env, d.live, d.summary) && payload == Build(env, live)
        && n == env.counter(d.calls, payload)
    ensures env.limit - 1280 - n >= 512 ==> SentWith(Last(env, d), live, payload, d.summary, n, Output(env, n))
    ensures env.limit - 1280 - n < 512 && n <= BudgetFor(env.limit, env.requested) ==>
      SentWith(Last(env, d), live, payload, d.summary, n, env.requested)
    ensures env.limit - 1280 - n < 512 && n > BudgetFor(env.limit, env.requested) ==>
      Last(env, d) == Exceeded(n, BudgetFor(env.limit, env.requested))
  {
    var e := RebaseIs(env, d);
    live, payload, n := e.live, e.payload, e.input;
  }

  /** The emergency context of a well-formed conversation: the summary at its shortest and
      the latest group with short results. */
  lemma {:induction false} EmergencySays(env: Env, live: seq<Message>, summary: string, q: nat)
    returns (r: seq<Message>, l: seq<Message>)
    requires WellFormed(live)
    ensures r == Emergency(env, live, summary) && l == Latest(live) && |r| == |l| + 2
    ensures r[0] == System(env.render(if summary == "" then "" else env.compact(summary, 0, 200, 0)))
    ensures r[1] == User(Words(env.emergencyNote))
    ensures q < |l| ==> r[q + 2] == ClipResult(Snapshot(l[q]), 160)
  {
    r, l := RebasedSays(live, env.render(if summary == "" then "" else env.compact(summary, 0, 200, 0)),
                        env.emergencyNote, q);
  }
}
