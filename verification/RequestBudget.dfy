/** prepare_agent_request_payload: shrinking a request until its measured input and its
    output allowance fit the context window together. */
module RequestBudget {
  import opened Text
  import opened ChatPayload
  import opened WellFormedPayload
  import opened ContextCuts
  import opened SnapshotTail
  import opened PayloadInsertion

  const TRANSIENT_RESERVE := 1024
  const COUNT_HEADROOM := 256
  const RESERVED := TRANSIENT_RESERVE + COUNT_HEADROOM
  const MIN_OUTPUT := 512
  const BUDGET_FLOOR := 1024

  /** Everything the preparation asks of the outside: the window and the limits, the
      playbook block, how a summary is rendered, compacted and rolled over, and what the
      n-th token count says about a payload. */
  datatype Env = Env(
    limit: int,
    requested: nat,
    maxChars: nat,
    keep: nat,
    block: string,
    resume: bool,
    render: string -> Content,
    compact: (string, nat, nat, nat) -> string,
    rollover: (seq<Message>, string) -> string,
    rolloverNote: string,
    emergencyNote: string,
    counter: (nat, seq<Message>) -> nat)

  /** A draft: the live messages, the request built from them, and its count. */
  datatype Draft = Draft(live: seq<Message>, summary: string, payload: seq<Message>, input: nat, calls: nat)

  datatype Prepared =
    | Sent(messages: seq<Message>, payload: seq<Message>, summary: string, input: nat, budget: int, output: int)
    | Exceeded(input: nat, budget: int)

  /** budget_for. */
  function BudgetFor(limit: int, output: int): int {
    var b := limit - output - RESERVED;
    if b > BUDGET_FLOOR then b else BUDGET_FLOOR
  }

  predicate FitsWindow(limit: int, input: int, output: int) {
    input + output + RESERVED <= limit
  }

  /** Staying within the budget keeps the window for every input exactly when the limit
      leaves room for the floor. */
  lemma {:induction false} BudgetIsSafeIff(limit: int, output: int)
    ensures (forall input: nat :: input <= BudgetFor(limit, output) ==> FitsWindow(limit, input, output))
            <==> limit >= output + RESERVED + BUDGET_FLOOR
  {
    if limit < output + RESERVED + BUDGET_FLOOR {
      var n: nat := BUDGET_FLOOR;
      assert n <= BudgetFor(limit, output) && !FitsWindow(limit, n, output);
    }
  }

  function Build(env: Env, live: seq<Message>): seq<Message> {
    Requested(live, env.block, env.maxChars, env.keep)
  }

  /** Live messages that come from the given ones: validated, without a late system message
      if the validated input has none, and well-formed if it is. */
  ghost predicate Follows(messages: seq<Message>, live: seq<Message>) {
    var v := Validate(messages).messages;
    && Validate(live).messages == live
    && (NoLateSystem(v) ==> NoLateSystem(live))
    && (WellFormed(v) ==> WellFormed(live))
  }

  /** The payload is built from the live messages, and the count is its count. */
  ghost predicate Sound(env: Env, messages: seq<Message>, d: Draft) {
    && d.calls > 0 && d.payload == Build(env, d.live) && d.input == env.counter(d.calls - 1, d.payload)
    && Follows(messages, d.live)
  }

  /** The live messages under a newly rendered system message. */
  function Rerendered(ms: seq<Message>, c: Content): seq<Message>
    requires Headed(ms)
  {
    Validate([System(c)] + ms[1..]).messages
  }

  lemma {:induction false} RerenderedIsWellFormed(ms: seq<Message>, c: Content)
    requires Headed(ms) && WellFormed(ms)
    ensures WellFormed(Rerendered(ms, c)) && Rerendered(ms, c) == [System(c)] + ms[1..]
  {
    var r := [System(c)] + ms[1..];
    forall k: nat | k < |ms|
      ensures SameShape(ms[k], r[k])
    {
      assert k == 0 || r[k] == ms[k];
      SameShapeReflexive(ms[k]);
    }
    RewrittenIsWellFormed(ms, r);
    AcceptedIffWellFormed(r);
  }

  lemma {:induction false} SameShapeReflexive(m: Message)
    ensures SameShape(m, m)
  {}

  // Every way to change the live messages

  lemma {:induction false} ValidatedFollows(messages: seq<Message>)
    ensures Follows(messages, Validate(messages).messages)
  {
    ValidateIdempotent(messages);
  }

  lemma {:induction false} RerenderedFollows(messages: seq<Message>, live: seq<Message>, c: Content)
    requires Follows(messages, live) && Headed(live)
    ensures Follows(messages, Rerendered(live, c))
  {
    ValidateIdempotent([System(c)] + live[1..]);
    if NoLateSystem(live) {
      ValidatedNoLateSystem([System(c)] + live[1..]);
    }
    if WellFormed(live) {
      RerenderedIsWellFormed(live, c);
    }
  }

  lemma {:induction false} RecentSystemFree(ms: seq<Message>, keep: nat)
    requires NoLateSystem(ms)
    ensures SystemFree(ms[RecentStart(ms, keep)..])
  {
    RecentStartIsBoundary(ms, keep);
  }

  lemma {:induction false} BehindTwoNoLateSystem(system: Content, note: string, c: seq<Message>)
    requires SystemFree(c)
    ensures NoLateSystem(Validate([System(system), User(Words(note))] + c).messages)
  {
    ValidatedNoLateSystem([System(system), User(Words(note))] + c);
  }

  lemma {:induction false} RolledOverFollows(messages: seq<Message>, live: seq<Message>, keep: nat, c: Content,
                                             note: string)
    requires Follows(messages, live)
    ensures Follows(messages, RolledOver(live, keep, c, note))
  {
    var recent := live[RecentStart(live, keep)..];
    ValidateIdempotent([System(c), User(Words(note))] + recent);
    if NoLateSystem(live) {
      RecentSystemFree(live, keep);
      BehindTwoNoLateSystem(c, note, recent);
    }
    if WellFormed(live) {
      RolloverKeepsWholeGroups(live, keep, c, note);
    }
  }

  lemma {:induction false} CutDownNoLateSystem(ms: seq<Message>, n: nat)
    requires NoLateSystem(ms) && 0 < n <= GroupCount(ms)
    ensures NoLateSystem(CutDown(ms, n))
  {
    GroupIndicesAt(ms, |ms|);
    var g, notice := Groups(ms), DroppedNotice(GroupCount(ms) - n, n);
    var first, last := g[0], g[|g| - n];
    var a, b := ms[..first], ms[last..];
    assert SystemFree(b);
    assert CutDown(ms, n) == a + [notice] + b;
  }

  lemma {:induction false} BoundedFollows(messages: seq<Message>, live: seq<Message>, max: nat, keep: nat)
    requires Follows(messages, live)
    ensures Follows(messages, Bounded(live, max, keep))
  {
    if Cuts(live, max, keep) {
      var cut := CutDown(live, BoundKeeps(live, max, keep));
      ValidateIdempotent(cut);
      if NoLateSystem(live) {
        CutDownNoLateSystem(live, BoundKeeps(live, max, keep));
        ValidatedNoLateSystem(cut);
      }
      if WellFormed(live) {
        BoundKeepsWholeGroups(live, max, keep);
      }
    }
  }

  lemma {:induction false} ClippedFollows(messages: seq<Message>, live: seq<Message>, n: nat)
    requires Follows(messages, live)
    ensures Follows(messages, Clipped(live, n))
  {
    var r := ClipResults(live, n, |live|);
    ValidateIdempotent(r);
    if NoLateSystem(live) {
      assert forall q :: 0 <= q < |r| ==> r[q].System? == live[q].System?;
      ValidatedNoLateSystem(r);
    }
    if WellFormed(live) {
      ClippedIsWellFormed(live, n);
    }
  }

  lemma {:induction false} LatestSystemFree(ms: seq<Message>)
    requires NoLateSystem(ms)
    ensures SystemFree(Latest(ms))
  {
    NonSystemFree(ms);
  }

  lemma {:induction false} RebasedNoLateSystem(ms: seq<Message>, c: Content, note: string)
    requires NoLateSystem(ms)
    ensures NoLateSystem(Rebased(ms, c, note))
  {
    var l := Latest(ms);
    var s := Snapshots(l);
    var r := ClipResults(s, 160, |s|);
    LatestSystemFree(ms);
    assert forall q :: 0 <= q < |r| ==> r[q].System? == s[q].System? == l[q].System?;
    ValidatedSystemFree(r);
    BehindTwoNoLateSystem(c, note, Clipped(s, 160));
  }

  lemma {:induction false} RebasedSettled(ms: seq<Message>, c: Content, note: string)
    ensures Validate(Rebased(ms, c, note)).messages == Rebased(ms, c, note)
  {
    ValidateIdempotent([System(c), User(Words(note))] + Clipped(Snapshots(Latest(ms)), 160));
  }

  lemma {:induction false} RebasedFollows(messages: seq<Message>, live: seq<Message>, c: Content, note: string)
    requires Follows(messages, live)
    ensures Follows(messages, Rebased(live, c, note))
  {
    RebasedSettled(live, c, note);
    if NoLateSystem(live) {
      RebasedNoLateSystem(live, c, note);
    }
    if WellFormed(live) {
      RebasedIsWellFormed(live, c, note);
    }
  }

  // The stages, in order

  /** One way to make an oversized draft smaller. */
  datatype Stage =
    | Compaction(tier2: nat, chars: nat, discoveries: nat)
    | Rollover
    | LastCompaction
    | Bounding
    | Clipping(chars: nat)

  /** What is tried while the draft is over budget; the compactions only for a resumed run. */
  function Stages(resume: bool): (r: seq<Stage>)
    ensures |r| == if resume then 9 else 5
  {
    if resume then
      [Compaction(6, 1200, 4), Compaction(3, 800, 2), Compaction(0, 400, 0), Rollover, LastCompaction, Bounding,
       Clipping(1000), Clipping(400), Clipping(160)]
    else [Rollover, Bounding, Clipping(1000), Clipping(400), Clipping(160)]
  }

  function Counted(env: Env, live: seq<Message>, summary: string, calls: nat): Draft {
    Draft(live, summary, Build(env, live), env.counter(calls, Build(env, live)), calls + 1)
  }

  /** The draft under another summary, if it is another one and there is a system message to
      hold it. */
  function Summarized(env: Env, d: Draft, summary: string): Draft {
    if summary == d.summary || !Headed(d.live) then d
    else Counted(env, Rerendered(d.live, env.render(summary)), summary, d.calls)
  }

  /** A rollover needs older messages to leave. */
  predicate Rolls(env: Env, live: seq<Message>) { RecentStart(live, env.keep) != |live| }

  function RolledSummary(env: Env, live: seq<Message>, summary: string): string {
    if Rolls(env, live) then env.rollover(live, summary) else summary
  }

  function RolledLive(env: Env, live: seq<Message>, summary: string): seq<Message> {
    if Rolls(env, live) then RolledOver(live, env.keep, env.render(env.rollover(live, summary)), env.rolloverNote)
    else live
  }

  /** The draft a stage makes of a draft. */
  function Staged(env: Env, existing: string, d: Draft, stage: Stage): Draft {
    match stage
    case Compaction(tier2, chars, discoveries) => Summarized(env, d, env.compact(existing, tier2, chars, discoveries))
    case Rollover => Counted(env, RolledLive(env, d.live, d.summary), RolledSummary(env, d.live, d.summary), d.calls)
    case LastCompaction => Summarized(env, d, env.compact(d.summary, 0, 400, 0))
    case Bounding => Counted(env, Bounded(d.live, 0, env.keep), d.summary, d.calls)
    case Clipping(chars) => Counted(env, Clipped(d.live, chars), d.summary, d.calls)
  }

  /** The live messages of the first draft. */
  function FirstLive(env: Env, messages: seq<Message>, existing: string): seq<Message> {
    var v := Validate(messages).messages;
    if Headed(v) then Rerendered(v, env.render(existing)) else v
  }

  /** The draft behind the first n stages. */
  function DraftAfter(env: Env, messages: seq<Message>, existing: string, n: nat): Draft
    requires n <= |Stages(env.resume)|
  {
    if n == 0 then Counted(env, FirstLive(env, messages, existing), existing, 0)
    else Staged(env, existing, DraftAfter(env, messages, existing, n - 1), Stages(env.resume)[n - 1])
  }

  /** All of them, from the first draft to the one behind every stage. */
  function Drafts(env: Env, messages: seq<Message>, existing: string): (r: seq<Draft>)
    ensures |r| == |Stages(env.resume)| + 1
  {
    var count := |Stages(env.resume)| + 1;
    seq(count, n requires 0 <= n < count => DraftAfter(env, messages, existing, n))
  }

  /** Stage k leads from draft k to the next. */
  ghost predicate StageAt(env: Env, existing: string, drafts: seq<Draft>, k: nat)
    requires k < |Stages(env.resume)| == |drafts| - 1
  {
    drafts[k + 1] == Staged(env, existing, drafts[k], Stages(env.resume)[k])
  }

  ghost predicate Runs(env: Env, existing: string, drafts: seq<Draft>) {
    && |Stages(env.resume)| == |drafts| - 1
    && forall k: nat {:trigger StageAt(env, existing, drafts, k)} :: k < |drafts| - 1 ==>
      StageAt(env, existing, drafts, k)
  }

  lemma {:induction false} DraftsRun(env: Env, messages: seq<Message>, existing: string) returns (drafts: seq<Draft>)
    ensures drafts == Drafts(env, messages, existing) && Runs(env, existing, drafts)
    ensures drafts[0] == Counted(env, FirstLive(env, messages, existing), existing, 0)
  {
    drafts := Drafts(env, messages, existing);
    forall k: nat | k < |drafts| - 1
      ensures StageAt(env, existing, drafts, k)
    {
      assert drafts[k] == DraftAfter(env, messages, existing, k);
      assert drafts[k + 1] == DraftAfter(env, messages, existing, k + 1);
    }
  }

  /** Draft n is d, and every earlier one is over budget. */
  ghost predicate Reached(drafts: seq<Draft>, budget: int, d: Draft, n: nat) {
    n < |drafts| && d == drafts[n] && forall k {:trigger drafts[k]} :: 0 <= k < n ==> drafts[k].input > budget
  }

  lemma {:induction false} Leads(env: Env, existing: string, drafts: seq<Draft>, k: nat, stage: Stage)
    requires Runs(env, existing, drafts) && k < |drafts| - 1 && Stages(env.resume)[k] == stage
    ensures drafts[k + 1] == Staged(env, existing, drafts[k], stage)
  {
    assert StageAt(env, existing, drafts, k);
  }

  /** What each stage makes of a draft. */
  lemma {:induction false} SummarizedCases(env: Env, d: Draft, summary: string)
    ensures summary == d.summary || !Headed(d.live) ==> Summarized(env, d, summary) == d
  {}

  lemma {:induction false} CompactionAt(env: Env, existing: string, drafts: seq<Draft>, k: nat)
    returns (summary: string)
    requires Runs(env, existing, drafts) && env.resume && k < 3
    ensures summary == env.compact(existing, SQUEEZES[k].0, SQUEEZES[k].1, SQUEEZES[k].2)
    ensures drafts[k + 1] == Summarized(env, drafts[k], summary)
  {
    var c := SQUEEZES[k];
    summary := env.compact(existing, c.0, c.1, c.2);
    Leads(env, existing, drafts, k, Compaction(c.0, c.1, c.2));
  }

  lemma {:induction false} RolloverAt(env: Env, existing: string, drafts: seq<Draft>, k: nat, d: Draft)
    returns (live: seq<Message>, summary: string)
    requires Runs(env, existing, drafts) && k == (if env.resume then 3 else 0) && d == drafts[k]
    ensures live == RolledLive(env, d.live, d.summary) && summary == RolledSummary(env, d.live, d.summary)
    ensures drafts[k + 1] == Counted(env, live, summary, d.calls)
  {
    Leads(env, existing, drafts, k, Rollover);
    live, summary := RolledLive(env, d.live, d.summary), RolledSummary(env, d.live, d.summary);
  }

  lemma {:induction false} LastCompactionAt(env: Env, existing: string, drafts: seq<Draft>) returns (summary: string)
    requires Runs(env, existing, drafts) && env.resume
    ensures summary == env.compact(drafts[4].summary, 0, 400, 0) && drafts[5] == Summarized(env, drafts[4], summary)
  {
    Leads(env, existing, drafts, 4, LastCompaction);
    summary := env.compact(drafts[4].summary, 0, 400, 0);
  }

  lemma {:induction false} BoundingAt(env: Env, existing: string, drafts: seq<Draft>, k: nat, d: Draft)
    returns (live: seq<Message>)
    requires Runs(env, existing, drafts) && k == (if env.resume then 5 else 1) && d == drafts[k]
    ensures live == Bounded(d.live, 0, env.keep) && drafts[k + 1] == Counted(env, live, d.summary, d.calls)
  {
    Leads(env, existing, drafts, k, Bounding);
    live := Bounded(d.live, 0, env.keep);
  }

  lemma {:induction false} ClippingAt(env: Env, existing: string, drafts: seq<Draft>, i: nat, k: nat, d: Draft)
    returns (live: seq<Message>)
    requires Runs(env, existing, drafts) && i < 3 && k == i + (if env.resume then 6 else 2) && d == drafts[k]
    ensures live == Clipped(d.live, CLIPS[i]) && drafts[k + 1] == Counted(env, live, d.summary, d.calls)
  {
    Leads(env, existing, drafts, k, Clipping(CLIPS[i]));
    live := Clipped(d.live, CLIPS[i]);
  }

  // Every draft is sound

  lemma {:induction false} CountedIsSound(env: Env, messages: seq<Message>, live: seq<Message>, summary: string,
                                          calls: nat)
    requires Follows(messages, live)
    ensures Sound(env, messages, Counted(env, live, summary, calls))
    ensures Counted(env, live, summary, calls).live == live && Counted(env, live, summary, calls).summary == summary
  {}

  lemma {:induction false} SummarizedIsSound(env: Env, messages: seq<Message>, d: Draft, summary: string)
    requires Sound(env, messages, d)
    ensures Sound(env, messages, Summarized(env, d, summary))
  {
    if summary != d.summary && Headed(d.live) {
      RerenderedFollows(messages, d.live, env.render(summary));
      CountedIsSound(env, messages, Rerendered(d.live, env.render(summary)), summary, d.calls);
    }
  }

  lemma {:induction false} RolledFollows(env: Env, messages: seq<Message>, live: seq<Message>, summary: string)
    requires Follows(messages, live)
    ensures Follows(messages, RolledLive(env, live, summary))
  {
    if Rolls(env, live) {
      RolledOverFollows(messages, live, env.keep, env.render(env.rollover(live, summary)), env.rolloverNote);
    }
  }

  lemma {:induction false} StagedIsSound(env: Env, messages: seq<Message>, existing: string, d: Draft, stage: Stage)
    requires Sound(env, messages, d)
    ensures Sound(env, messages, Staged(env, existing, d, stage))
  {
    match stage {
      case Compaction(tier2, chars, discoveries) =>
        SummarizedIsSound(env, messages, d, env.compact(existing, tier2, chars, discoveries));
      case Rollover =>
        RolledFollows(env, messages, d.live, d.summary);
        CountedIsSound(env, messages, RolledLive(env, d.live, d.summary), RolledSummary(env, d.live, d.summary),
          d.calls);
      case LastCompaction => SummarizedIsSound(env, messages, d, env.compact(d.summary, 0, 400, 0));
      case Bounding =>
        BoundedFollows(messages, d.live, 0, env.keep);
        CountedIsSound(env, messages, Bounded(d.live, 0, env.keep), d.summary, d.calls);
      case Clipping(chars) =>
        ClippedFollows(messages, d.live, chars);
        CountedIsSound(env, messages, Clipped(d.live, chars), d.summary, d.calls);
    }
  }

  lemma {:induction false} FirstFollows(env: Env, messages: seq<Message>, existing: string)
    ensures Follows(messages, FirstLive(env, messages, existing))
  {
    ValidatedFollows(messages);
    if Headed(Validate(messages).messages) {
      RerenderedFollows(messages, Validate(messages).messages, env.render(existing));
    }
  }

  lemma {:induction false} DraftIsSound(env: Env, messages: seq<Message>, existing: string, n: nat)
    requires n <= |Stages(env.resume)|
    ensures Sound(env, messages, DraftAfter(env, messages, existing, n))
  {
    if n == 0 {
      FirstFollows(env, messages, existing);
      CountedIsSound(env, messages, FirstLive(env, messages, existing), existing, 0);
    } else {
      DraftIsSound(env, messages, existing, n - 1);
      StagedIsSound(env, messages, existing, DraftAfter(env, messages, existing, n - 1), Stages(env.resume)[n - 1]);
    }
  }

  // The preparation

  method CountDraft(env: Env, live: seq<Message>, summary: string, calls: nat) returns (d: Draft)
    ensures d == Counted(env, live, summary, calls)
  {
    var payload := Build(env, live);
    d := Draft(live, summary, payload, env.counter(calls, payload), calls + 1);
  }

  method UseSummary(env: Env, d: Draft, summary: string) returns (e: Draft)
    requires Headed(d.live) && summary != d.summary
    ensures e == Summarized(env, d, summary)
  {
    e := CountDraft(env, Rerendered(d.live, env.render(summary)), summary, d.calls);
  }

  const SQUEEZES: seq<(nat, nat, nat)> := [(6, 1200, 4), (3, 800, 2), (0, 400, 0)]

  /** Without a system message no compaction changes anything. */
  lemma {:induction false} NothingToHold(env: Env, existing: string, drafts: seq<Draft>, budget: int, d: Draft, n: nat)
    requires Runs(env, existing, drafts) && env.resume && n <= 3 && Reached(drafts, budget, d, n)
    requires d.input > budget && !Headed(d.live)
    ensures Reached(drafts, budget, d, 3)
    decreases 3 - n
  {
    if n < 3 {
      var summary := CompactionAt(env, existing, drafts, n);
      SummarizedCases(env, d, summary);
      NothingToHold(env, existing, drafts, budget, d, n + 1);
    }
  }

  /** One of the compactions of a resumed run; `stop` without a system message to change. */
  method CompactOnce(env: Env, existing: string, d: Draft, i: nat, ghost drafts: seq<Draft>)
    returns (e: Draft, stop: bool)
    requires Runs(env, existing, drafts) && env.resume && i < 3 && d == drafts[i]
    ensures e == drafts[i + 1] && (stop ==> e == d && !Headed(d.live))
  {
    ghost var summary := CompactionAt(env, existing, drafts, i);
    var compacted := env.compact(existing, SQUEEZES[i].0, SQUEEZES[i].1, SQUEEZES[i].2);
    SummarizedCases(env, d, compacted);
    e, stop := d, false;
    if compacted != d.summary {
      if !Headed(d.live) {
        return d, true;
      }
      e := UseSummary(env, d, compacted);
    }
  }

  /** Smaller and smaller summaries of a resumed run. */
  method CompactForResume(env: Env, existing: string, d: Draft, budget: int, ghost drafts: seq<Draft>)
    returns (e: Draft, ghost n: nat)
    requires Runs(env, existing, drafts) && env.resume && d.input > budget && Reached(drafts, budget, d, 0)
    ensures Reached(drafts, budget, e, n) && n <= 3 && (e.input > budget ==> n == 3)
  {
    e, n := d, 0;
    for i := 0 to |SQUEEZES|
      invariant Reached(drafts, budget, e, n) && e.input > budget && n == i
    {
      var stop;
      e, stop := CompactOnce(env, existing, e, i, drafts);
      n := n + 1;
      if stop {
        NothingToHold(env, existing, drafts, budget, e, n);
        n := 3;
        return;
      }
      if e.input <= budget {
        return;
      }
    }
  }

  /** The rolled over messages and their summary, or the old ones, counted. */
  method RollOnce(env: Env, ghost existing: string, d: Draft, ghost drafts: seq<Draft>, ghost k: nat) returns (e: Draft)
    requires Runs(env, existing, drafts) && k == (if env.resume then 3 else 0) && d == drafts[k]
    ensures e == drafts[k + 1]
  {
    ghost var to, text := RolloverAt(env, existing, drafts, k, d);
    var live, summary := d.live, d.summary;
    if RecentStart(live, env.keep) != |live| {
      summary := env.rollover(d.live, d.summary);
      live := RolledOver(d.live, env.keep, env.render(summary), env.rolloverNote);
    }
    e := CountDraft(env, live, summary, d.calls);
  }

  method CompactRolled(env: Env, ghost existing: string, d: Draft, ghost drafts: seq<Draft>) returns (e: Draft)
    requires Runs(env, existing, drafts) && env.resume && d == drafts[4]
    ensures e == drafts[5]
  {
    ghost var summary := LastCompactionAt(env, existing, drafts);
    var compacted := env.compact(d.summary, 0, 400, 0);
    SummarizedCases(env, d, compacted);
    e := d;
    if compacted != d.summary && Headed(d.live) {
      e := UseSummary(env, d, compacted);
    }
  }

  /** The rollover, and one more compaction behind it for a resumed run. */
  method RollOver(env: Env, ghost existing: string, d: Draft, budget: int, ghost drafts: seq<Draft>)
    returns (e: Draft, ghost n: nat)
    requires Runs(env, existing, drafts) && d.input > budget
    requires Reached(drafts, budget, d, if env.resume then 3 else 0)
    ensures Reached(drafts, budget, e, n) && (e.input > budget ==> n == if env.resume then 5 else 1)
  {
    n := if env.resume then 3 else 0;
    e := RollOnce(env, existing, d, drafts, n);
    n := n + 1;
    if e.input > budget && env.resume {
      e := CompactRolled(env, existing, e, drafts);
      n := n + 1;
    }
  }

  const CLIPS: seq<nat> := [1000, 400, 160]

  method BoundOnce(env: Env, ghost existing: string, d: Draft, ghost drafts: seq<Draft>, ghost k: nat)
    returns (e: Draft)
    requires Runs(env, existing, drafts) && k == (if env.resume then 5 else 1) && d == drafts[k]
    ensures e == drafts[k + 1]
  {
    ghost var bounded := BoundingAt(env, existing, drafts, k, d);
    e := CountDraft(env, Bounded(d.live, 0, env.keep), d.summary, d.calls);
  }

  method ClipOnce(env: Env, ghost existing: string, d: Draft, i: nat, ghost drafts: seq<Draft>, ghost k: nat)
    returns (e: Draft)
    requires Runs(env, existing, drafts) && i < 3 && k == i + (if env.resume then 6 else 2) && d == drafts[k]
    ensures e == drafts[k + 1]
  {
    ghost var clipped := ClippingAt(env, existing, drafts, i, k, d);
    e := CountDraft(env, Clipped(d.live, CLIPS[i]), d.summary, d.calls);
  }

  /** Older groups go first, then the texts of the remaining results. */
  method Trim(env: Env, ghost existing: string, d: Draft, budget: int, ghost drafts: seq<Draft>, ghost k: nat)
    returns (e: Draft, ghost n: nat)
    requires Runs(env, existing, drafts) && Reached(drafts, budget, d, k)
    requires d.input > budget ==> k == if env.resume then 5 else 1
    ensures Reached(drafts, budget, e, n) && (e.input > budget ==> n == |drafts| - 1)
  {
    e, n := d, k;
    if e.input > budget {
      e := BoundOnce(env, existing, e, drafts, n);
      n := n + 1;
    }
    for i := 0 to |CLIPS|
      invariant Reached(drafts, budget, e, n)
      invariant e.input > budget ==> n == i + if env.resume then 6 else 2
    {
      if e.input <= budget {
        break;
      }
      e := ClipOnce(env, existing, e, i, drafts, n);
      n := n + 1;
    }
  }

  /** The context the emergency rebase leaves of some messages. */
  function Emergency(env: Env, live: seq<Message>, summary: string): seq<Message> {
    Rebased(live, env.render(if summary == "" then "" else env.compact(summary, 0, 200, 0)), env.emergencyNote)
  }

  /** The output tokens that an input leaves in the window. */
  function Left(env: Env, input: nat): int { env.limit - RESERVED - input }

  function Lesser(a: int, b: int): int { if a < b then a else b }

  /** The output allowance that the measured input leaves, and the budget that goes with it. */
  method Adapt(env: Env, input: nat, budget: int, output: int) returns (b: int, out: int)
    requires budget == BudgetFor(env.limit, output) && output == env.requested
    ensures out == if Left(env, input) < MIN_OUTPUT then output else Lesser(output, Left(env, input))
    ensures b == BudgetFor(env.limit, out)
    ensures Left(env, input) >= MIN_OUTPUT ==> input <= b && FitsWindow(env.limit, input, out)
  {
    b, out := budget, output;
    var available := env.limit - RESERVED - input;
    if available >= MIN_OUTPUT {
      out := if output < available then output else available;
      b := BudgetFor(env.limit, out);
    }
  }

  /** The count is the count of a request built from an emergency context. */
  ghost predicate OfEmergency(env: Env, input: nat) {
    exists live: seq<Message>, summary: string, n: nat ::
      input == env.counter(n, Build(env, Emergency(env, live, summary)))
  }

  /** The emergency context of a draft. */
  function Rebase(env: Env, d: Draft): Draft {
    Counted(env, Emergency(env, d.live, d.summary), d.summary, d.calls)
  }

  /** The last stage: a smaller output, or the emergency context. */
  method Settle(env: Env, d: Draft) returns (e: Draft, budget: int, output: int)
    ensures budget == BudgetFor(env.limit, output)
    ensures var fits, small := d.input <= BudgetFor(env.limit, env.requested), Left(env, d.input) < MIN_OUTPUT;
      && e == (if !fits && small then Rebase(env, d) else d)
      && output == (if fits || Left(env, e.input) < MIN_OUTPUT then env.requested
                    else Lesser(env.requested, Left(env, e.input)))
    ensures e.input > budget ==> Left(env, e.input) < MIN_OUTPUT
  {
    e, output := d, env.requested;
    budget := BudgetFor(env.limit, output);
    if e.input > budget {
      if env.limit - RESERVED - e.input < MIN_OUTPUT {
        e := CountDraft(env, Emergency(env, d.live, d.summary), d.summary, d.calls);
      }
      budget, output := Adapt(env, e.input, budget, output);
    }
  }

  lemma {:induction false} RebaseIsSound(env: Env, messages: seq<Message>, d: Draft)
    requires Sound(env, messages, d)
    ensures Sound(env, messages, Rebase(env, d)) && OfEmergency(env, Rebase(env, d).input)
  {
    var live := Emergency(env, d.live, d.summary);
    RebasedFollows(messages, d.live, env.render(if d.summary == "" then "" else env.compact(d.summary, 0, 200, 0)),
                   env.emergencyNote);
    CountedIsSound(env, messages, live, d.summary, d.calls);
    assert Rebase(env, d).input == env.counter(d.calls, Build(env, Emergency(env, d.live, d.summary)));
  }

  /** A request sent for live messages that were counted in the n-th count: when it is the
      payload counted, and what it keeps of the input. */
  ghost predicate SentFor(env: Env, messages: seq<Message>, r: Prepared, live: seq<Message>, n: nat)
    requires r.Sent?
  {
    var counted, v := Build(env, live), Validate(messages).messages;
    && r.messages == live == Validate(live).messages
    && r.payload == Validate(counted).messages && r.input == env.counter(n, counted)
    && (r.payload == counted
        <==> env.block == "" || Cuts(WithBlock(live, env.block), env.maxChars, env.keep) || NoLateSystem(live))
    && (NoLateSystem(v) ==> r.payload == counted)
    && (WellFormed(v) ==> WellFormed(r.payload))
  }

  /** The validated messages under a fresh system message, built and counted. */
  method FirstDraft(env: Env, messages: seq<Message>, existing: string) returns (d: Draft)
    ensures d == Counted(env, FirstLive(env, messages, existing), existing, 0)
  {
    var v := ValidateChatPayload(messages);
    var live := v.messages;
    if Headed(live) {
      live := Rerendered(live, env.render(existing));
    }
    d := CountDraft(env, live, existing, 0);
  }

  /** Every safe way to make an oversized draft smaller, in turn. */
  method Shrink(env: Env, existing: string, first: Draft, budget: int, ghost drafts: seq<Draft>)
    returns (d: Draft, ghost n: nat)
    requires Runs(env, existing, drafts) && first == drafts[0]
    ensures Reached(drafts, budget, d, n) && (d.input > budget ==> n == |drafts| - 1)
  {
    d, n := first, 0;
    if d.input > budget && env.resume {
      d, n := CompactForResume(env, existing, d, budget, drafts);
    }
    if d.input > budget {
      d, n := RollOver(env, existing, d, budget, drafts);
    }
    d, n := Trim(env, existing, d, budget, drafts, n);
  }

  /** Draft n is the first within the budget. */
  predicate FirstWithin(drafts: seq<Draft>, budget: int, n: int) {
    0 <= n < |drafts| && drafts[n].input <= budget && forall k :: 0 <= k < n ==> drafts[k].input > budget
  }

  predicate NoneWithin(drafts: seq<Draft>, budget: int) {
    forall k :: 0 <= k < |drafts| ==> drafts[k].input > budget
  }

  /** Draft d, sent with this budget and output. */
  function Sending(d: Draft, budget: int, output: int): Prepared {
    Sent(Validate(d.live).messages, Validate(d.payload).messages, d.summary, d.input, budget, output)
  }

  /** What becomes of a draft that is over budget behind all stages: it is sent with what it
      leaves of the output; if that is too little, its emergency context is, with what that
      one leaves; or it is refused. */
  function Last(env: Env, d: Draft): Prepared {
    var e, budget := Rebase(env, d), BudgetFor(env.limit, env.requested);
    if Left(env, d.input) >= MIN_OUTPUT then
      var output := Lesser(env.requested, Left(env, d.input));
      Sending(d, BudgetFor(env.limit, output), output)
    else if Left(env, e.input) >= MIN_OUTPUT then
      var output := Lesser(env.requested, Left(env, e.input));
      Sending(e, BudgetFor(env.limit, output), output)
    else if e.input <= budget then Sending(e, budget, env.requested)
    else Exceeded(e.input, budget)
  }

  /** The draft d that the stages end with is sent, or what is behind them decides. */
  method Finish(env: Env, small: Draft) returns (r: Prepared, ghost d: Draft)
    ensures small.input <= BudgetFor(env.limit, env.requested) ==>
      r == Sending(small, BudgetFor(env.limit, env.requested), env.requested)
    ensures small.input > BudgetFor(env.limit, env.requested) ==> r == Last(env, small)
    ensures d == small || d == Rebase(env, small)
    ensures r.Sent? ==> r == Sending(d, r.budget, r.output)
    ensures r.Exceeded? ==> d == Rebase(env, small) && r.input == d.input > r.budget && Left(env, r.input) < MIN_OUTPUT
    ensures WithinBudget(env, r)
  {
    var e, budget, output := Settle(env, small);
    d := e;
    if e.input > budget {
      return Exceeded(e.input, budget), d;
    }
    r := Sent(Validate(e.live).messages, Validate(e.payload).messages, e.summary, e.input, budget, output);
  }

  /** The stages, and what is behind them. */
  method Decide(env: Env, messages: seq<Message>, existing: string, ghost drafts: seq<Draft>)
    returns (r: Prepared, ghost small: Draft, ghost n: nat, ghost d: Draft)
    requires Runs(env, existing, drafts)
    requires drafts[0] == Counted(env, FirstLive(env, messages, existing), existing, 0)
    ensures var budget := BudgetFor(env.limit, env.requested);
      && Reached(drafts, budget, small, n) && (small.input > budget ==> n == |drafts| - 1)
      && (small.input <= budget ==> r == Sending(small, budget, env.requested))
      && (small.input > budget ==> r == Last(env, small))
    ensures d == small || d == Rebase(env, small)
    ensures r.Sent? ==> r == Sending(d, r.budget, r.output)
    ensures r.Exceeded? ==> d == Rebase(env, small) && r.input == d.input > r.budget && Left(env, r.input) < MIN_OUTPUT
    ensures WithinBudget(env, r)
  {
    var first := FirstDraft(env, messages, existing);
    var last;
    last, n := Shrink(env, existing, first, BudgetFor(env.limit, env.requested), drafts);
    small := last;
    r, d := Finish(env, last);
  }

  /** Input and output of a sent request keep the budget and, if there is room, the window. */
  predicate WithinBudget(env: Env, r: Prepared) {
    r.Sent? ==>
      && r.input <= r.budget == BudgetFor(env.limit, r.output)
      && r.output <= env.requested && (r.output == env.requested || r.output >= MIN_OUTPUT)
      && (env.limit >= env.requested + RESERVED + BUDGET_FLOOR ==> FitsWindow(env.limit, r.input, r.output))
  }

  /** The first draft within the budget is sent, with the requested output; without one, what
      is behind the stages decides about the last draft. */
  ghost predicate FirstFitDecides(env: Env, drafts: seq<Draft>, r: Prepared)
    requires drafts != []
  {
    var budget := BudgetFor(env.limit, env.requested);
    && (forall n {:trigger drafts[n]} :: FirstWithin(drafts, budget, n) ==>
          r == Sending(drafts[n], budget, env.requested))
    && (NoneWithin(drafts, budget) ==> r == Last(env, drafts[|drafts| - 1]))
  }

  lemma {:induction false} ReachedDecides(env: Env, drafts: seq<Draft>, r: Prepared, small: Draft, n: nat)
    requires var budget := BudgetFor(env.limit, env.requested);
      && Reached(drafts, budget, small, n) && (small.input > budget ==> n == |drafts| - 1)
      && (small.input <= budget ==> r == Sending(small, budget, env.requested))
      && (small.input > budget ==> r == Last(env, small))
    ensures FirstFitDecides(env, drafts, r)
  {
    var budget := BudgetFor(env.limit, env.requested);
    forall k | FirstWithin(drafts, budget, k)
      ensures k == n
    {
      assert drafts[k].input <= budget;
    }
  }

  /** Whatever the counter says: a request is sent only within its budget and with the count
      of the request that was built; it is refused only with the count of an emergency
      context that leaves less than the smallest output. If the limit has room for the
      requested output, the reserve and the floor, input, output and reserve fit the window.
      Of the stages the first draft within the budget is sent, with the requested output. */
  method PrepareRequest(env: Env, messages: seq<Message>, existing: string) returns (r: Prepared)
    ensures WithinBudget(env, r)
    ensures r.Exceeded? ==> r.input > r.budget && Left(env, r.input) < MIN_OUTPUT && OfEmergency(env, r.input)
    ensures r.Sent? ==> exists live: seq<Message>, n: nat :: SentFor(env, messages, r, live, n)
    ensures
      var first := FirstLive(env, messages, existing);
      env.counter(0, Build(env, first)) <= BudgetFor(env.limit, env.requested) ==>
        r.Sent? && SentFor(env, messages, r, first, 0)
    ensures FirstFitDecides(env, Drafts(env, messages, existing), r)
  {
    ghost var drafts := DraftsRun(env, messages, existing);
    ghost var small, n, d;
    r, small, n, d := Decide(env, messages, existing, drafts);
    ReachedDecides(env, drafts, r, small, n);
    DraftsAre(env, messages, existing, n);
    SettledIsSent(env, messages, existing, small, n, d, r);
    FirstOutcome(env, messages, existing, drafts, r);
  }

  lemma {:induction false} DraftsAre(env: Env, messages: seq<Message>, existing: string, n: nat)
    requires n <= |Stages(env.resume)|
    ensures Drafts(env, messages, existing)[n] == DraftAfter(env, messages, existing, n)
  {}

  lemma {:induction false} SettledIsSound(env: Env, messages: seq<Message>, existing: string, small: Draft, n: nat,
                                          d: Draft)
    requires n <= |Stages(env.resume)| && small == DraftAfter(env, messages, existing, n)
    requires d == small || d == Rebase(env, small)
    ensures Sound(env, messages, d) && (d == Rebase(env, small) ==> OfEmergency(env, d.input))
  {
    DraftIsSound(env, messages, existing, n);
    RebaseIsSound(env, messages, small);
  }

  /** What was sent or refused was counted, and sent for the live messages it was built of. */
  lemma {:induction false} SettledIsSent(env: Env, messages: seq<Message>, existing: string, small: Draft, n: nat,
                                         d: Draft, r: Prepared)
    requires n <= |Stages(env.resume)| && small == DraftAfter(env, messages, existing, n)
    requires d == small || d == Rebase(env, small)
    requires r.Sent? ==> r == Sending(d, r.budget, r.output)
    requires r.Exceeded? ==> d == Rebase(env, small) && r.input == d.input
    ensures r.Sent? ==> exists live: seq<Message>, k: nat :: SentFor(env, messages, r, live, k)
    ensures r.Exceeded? ==> OfEmergency(env, r.input)
  {
    SettledIsSound(env, messages, existing, small, n, d);
    if r.Sent? {
      SendingIsFor(env, messages, d, r.budget, r.output);
      assert SentFor(env, messages, r, d.live, d.calls - 1);
    }
  }

  lemma {:induction false} SendingIsFor(env: Env, messages: seq<Message>, d: Draft, budget: int, output: int)
    requires Sound(env, messages, d)
    ensures SentFor(env, messages, Sending(d, budget, output), d.live, d.calls - 1)
  {
    DraftIsSent(env, messages, d, Sending(d, budget, output));
  }

  lemma {:induction false} FirstIsFor(env: Env, messages: seq<Message>, existing: string, budget: int, output: int)
    ensures var first := FirstLive(env, messages, existing);
      SentFor(env, messages, Sending(Counted(env, first, existing, 0), budget, output), first, 0)
  {
    var first := FirstLive(env, messages, existing);
    FirstFollows(env, messages, existing);
    CountedIsSound(env, messages, first, existing, 0);
    SendingIsFor(env, messages, Counted(env, first, existing, 0), budget, output);
  }

  /** The first draft, if it is within the budget. */
  lemma {:induction false} FirstOutcome(env: Env, messages: seq<Message>, existing: string, drafts: seq<Draft>,
                                        r: Prepared)
    requires drafts != [] && FirstFitDecides(env, drafts, r)
    requires drafts[0] == Counted(env, FirstLive(env, messages, existing), existing, 0)
    ensures var first := FirstLive(env, messages, existing);
      env.counter(0, Build(env, first)) <= BudgetFor(env.limit, env.requested) ==>
        r.Sent? && SentFor(env, messages, r, first, 0)
  {
    var budget := BudgetFor(env.limit, env.requested);
    if drafts[0].input <= budget {
      assert FirstWithin(drafts, budget, 0);
      FirstIsFor(env, messages, existing, budget, env.requested);
    }
  }

  lemma {:induction false} DraftIsSent(env: Env, messages: seq<Message>, d: Draft, r: Prepared)
    requires Sound(env, messages, d) && r.Sent? && r.messages == Validate(d.live).messages
    requires r.payload == Validate(d.payload).messages && r.input == d.input
    ensures SentFor(env, messages, r, d.live, d.calls - 1)
  {
    SentAsCountedIff(d.live, env.block, env.maxChars, env.keep);
    if WellFormed(d.live) {
      AcceptedIffWellFormed(d.live);
      RequestIsWellFormed(d.live, env.block, env.maxChars, env.keep);
      AcceptedIffWellFormed(d.payload);
    }
  }

  /** An early result in front of a system message. */
  function LateSystem(c: Call, text: string, system: Content): seq<Message> {
    [Result(c.id, "tool", Words(text)), System(system), Assistant(Nothing, [c])]
  }

  lemma {:induction false} LateSystemAnswer(c: Call, text: string, system: Content)
    requires Good(c)
    ensures var ms := LateSystem(c, text, system);
            UniqueCalls(ms) && KeptAt(ms, 2) == [Canonical(c)] && c.id.value in Taken(ms, 3)
            && AnswerAt(ms, 3, c.id.value) == Some(0)
  {
    var ms := LateSystem(c, text, system);
    assert CallIn(ms, 2, 0) && CallAt(ms, 2, 0) == c;
    UniqueKept(ms, 2);
    assert Canonicals([c], 1) == [Canonical(c)];
    TakenAll(ms, 2, 0);
    assert AnswerAt(ms, 1, c.id.value) == Some(0) && AnswerAt(ms, 2, c.id.value) == Some(0);
  }

  lemma {:induction false} LateSystemIsAccepted(c: Call, text: string, system: Content)
    requires Good(c)
    ensures Validate(LateSystem(c, text, system)).messages == LateSystem(c, text, system)
  {
    var ms, kept := LateSystem(c, text, system), [Canonical(c)];
    LateSystemAnswer(c, text, system);
    assert PlaceDefect(ms, 2) == {} by {
      assert !Unanswered(ms, kept, 0) && !Unanswered(ms, kept, 1);
      assert GroupPositions(ms, kept, 0) == [] && GroupPositions(ms, kept, 1) == [0];
      assert !GroupSplit(2, [0]);
    }
    assert !Started(ms, 0) && !Started(ms, 1);
    assert PlaceDefect(ms, 0) == {} && PlaceDefect(ms, 1) == {};
    assert ResultDefect(ms, 0) == {} && ResultDefect(ms, 1) == {} && ResultDefect(ms, 2) == {};
    NoDefectsIffSpotless(ms);
  }

  /** A request prepared for such a payload behind a playbook block: it is counted in one
      form and sent in another. */
  method PrepareLateSystem(env: Env, c: Call, text: string, system: Content, existing: string)
    returns (r: Prepared, ghost counted: seq<Message>)
    requires Good(c) && env.block != ""
    requires env.counter(0, Build(env, LateSystem(c, text, system))) <= BudgetFor(env.limit, env.requested)
    ensures counted == Build(env, LateSystem(c, text, system))
    ensures r.Sent? && r.input == env.counter(0, counted) && r.payload != counted
  {
    var ms := LateSystem(c, text, system);
    LateSystemIsAccepted(c, text, system);
    counted := Build(env, ms);
    OneGroup(Assistant(Words(env.block), []), c, text, system);
    LateSystemNotCut(env, c, text, system);
    assert FirstLive(env, ms, existing) == ms;
    assert !NoLateSystem(ms) by {
      assert ms[1].System?;
    }
    r := PrepareRequest(env, ms, existing);
  }

  lemma {:induction false} LateSystemNotCut(env: Env, c: Call, text: string, system: Content)
    requires env.block != ""
    ensures !Cuts(WithBlock(LateSystem(c, text, system), env.block), env.maxChars, env.keep)
  {
    var ms, m := LateSystem(c, text, system), Assistant(Words(env.block), []);
    assert !Headed(ms);
    assert WithBlock(ms, env.block) == [m] + ms;
    OneGroup(m, c, text, system);
  }

  lemma {:induction false} OneGroup(m: Message, c: Call, text: string, system: Content)
    requires CallsOf(m) == []
    ensures GroupCount([m] + LateSystem(c, text, system)) == 1
  {
    var q := [m] + LateSystem(c, text, system);
    assert q[0] == m && q[1].Result? && q[2].System? && |q| == 4;
    assert !Announcing(q[0]) && !Announcing(q[1]) && !Announcing(q[2]);
    assert GroupIndices(q, 1) == [];
    assert GroupIndices(q, 2) == [];
    assert GroupIndices(q, 3) == [];
  }
}
