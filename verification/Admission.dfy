/** Which calls of a batch bot.py executes: duplicates, repeated failures, the loop guard,
    the other vetoes and the run budget, in the order the agent loop checks them. */
module Admission {
  import opened Text

  const FAILURE_LIMIT := 2
  const ARTIFACT_CHAIN_LIMIT := 3

  /** What identifies an action for the duplicate and failure checks. */
  datatype Signature = Signature(name: string, key: string)

  /** One call of a batch. `fingerprint` is set for guarded tools; the flags say what the
      earlier checks and the other policies answer for this call. */
  datatype ToolCall = ToolCall(
    name: string, arguments: string, fingerprint: Option<string>, force: bool, artifactRead: bool,
    identityError: bool, argumentError: bool,
    observationRepeat: bool, knownBad: bool, recordStale: bool, thinkDue: bool)

  function SignatureOf(c: ToolCall): Signature { Signature(c.name, c.arguments) }

  /** Guarded calls fail by fingerprint, the others by their exact arguments. */
  function FailureOf(c: ToolCall): Signature {
    if c.fingerprint.Some? then Signature(c.name, c.fingerprint.value) else SignatureOf(c)
  }

  /** The latest failure and how often in a row it has happened. */
  datatype Streak = Streak(failure: Option<Signature>, count: nat)

  const NO_STREAK := Streak(None, 0)

  function Again(s: Streak, f: Signature): Streak {
    if s.failure == Some(f) then Streak(s.failure, s.count + 1) else Streak(Some(f), 1)
  }

  /** What a batch starts from; `recent` are the fingerprints within the window. */
  datatype Context = Context(recent: seq<string>, streak: Streak, executed: nat, budget: nat, artifactReads: nat)

  /** The gate while it goes through a batch. */
  datatype Gate = Gate(signatures: set<Signature>, fingerprints: set<string>, artifactReads: nat,
                       allowed: seq<ToolCall>, projected: Streak)

  datatype Answer =
    | Admitted | IdentityError | ArgumentError | BatchDuplicate | FailureLimit | LoopRepeat
    | ObservationRepeat | KnownBad | ArtifactChain | RecordStale | ThinkRequired | BudgetExhausted

  predicate InRecent(recent: seq<string>, fp: string) {
    exists k :: 0 <= k < |recent| && recent[k] == fp
  }

  function OpenGate(ctx: Context): Gate { Gate({}, {}, 0, [], ctx.streak) }

  /** What the gate answers to one call. */
  function Answered(ctx: Context, g: Gate, c: ToolCall): Answer {
    var guarded := c.fingerprint.Some?;
    if c.identityError then IdentityError
    else if c.argumentError then ArgumentError
    else if SignatureOf(c) in g.signatures then BatchDuplicate
    else if guarded && c.fingerprint.value in g.fingerprints && !c.force then BatchDuplicate
    else if g.projected.failure == Some(FailureOf(c)) && g.projected.count >= FAILURE_LIMIT then FailureLimit
    else if guarded && InRecent(ctx.recent, c.fingerprint.value) && !c.force then LoopRepeat
    else if c.name == "bash_exec" && !c.force && c.observationRepeat then ObservationRepeat
    else if !c.force && c.knownBad then KnownBad
    else if c.artifactRead && !c.force && ctx.artifactReads + g.artifactReads >= ARTIFACT_CHAIN_LIMIT then ArtifactChain
    else if c.recordStale then RecordStale
    else if c.thinkDue then ThinkRequired
    else if ctx.executed + |g.allowed| >= ctx.budget then BudgetExhausted
    else Admitted
  }

  /** The call is remembered for the rest of the batch. */
  function Noted(g: Gate, c: ToolCall): Gate {
    g.(signatures := g.signatures + {SignatureOf(c)},
       fingerprints := if c.fingerprint.Some? then g.fingerprints + {c.fingerprint.value} else g.fingerprints)
  }

  function Admit(g: Gate, c: ToolCall): Gate {
    Noted(g, c).(artifactReads := g.artifactReads + if c.artifactRead then 1 else 0,
                 allowed := g.allowed + [c],
                 projected := Again(g.projected, FailureOf(c)))
  }

  function Recorded(g: Gate, c: ToolCall, answer: Answer): Gate {
    match answer
    case Admitted => Admit(g, c)
    case IdentityError => g
    case ArgumentError => g
    case BudgetExhausted => g
    case BatchDuplicate => g.(signatures := g.signatures + {SignatureOf(c)})
    case _ => Noted(g, c)
  }

  function Behind(ctx: Context, g: Gate, c: ToolCall): Gate {
    Recorded(g, c, Answered(ctx, g, c))
  }

  /** The gate once it has answered the first n calls. */
  function Through(ctx: Context, calls: seq<ToolCall>, n: nat): Gate
    requires n <= |calls|
  {
    if n == 0 then OpenGate(ctx) else Behind(ctx, Through(ctx, calls, n - 1), calls[n - 1])
  }

  function AllowedOf(ctx: Context, calls: seq<ToolCall>): seq<ToolCall> {
    Through(ctx, calls, |calls|).allowed
  }

  method Judge(ctx: Context, g: Gate, c: ToolCall) returns (answer: Answer)
    ensures answer == Answered(ctx, g, c)
  {
    if c.identityError {
      return IdentityError;
    }
    if c.argumentError {
      return ArgumentError;
    }
    var signature, guarded, failure := SignatureOf(c), c.fingerprint.Some?, FailureOf(c);
    if signature in g.signatures {
      return BatchDuplicate;
    }
    if guarded && c.fingerprint.value in g.fingerprints && !c.force {
      return BatchDuplicate;
    }
    if g.projected.failure == Some(failure) && g.projected.count >= FAILURE_LIMIT {
      return FailureLimit;
    }
    if guarded && !c.force {
      for k := 0 to |ctx.recent|
        invariant forall j :: 0 <= j < k ==> ctx.recent[j] != c.fingerprint.value
      {
        if ctx.recent[k] == c.fingerprint.value {
          return LoopRepeat;
        }
      }
    }
    if c.name == "bash_exec" && !c.force && c.observationRepeat {
      return ObservationRepeat;
    }
    if !c.force && c.knownBad {
      return KnownBad;
    }
    if c.artifactRead && !c.force && ctx.artifactReads + g.artifactReads >= ARTIFACT_CHAIN_LIMIT {
      return ArtifactChain;
    }
    if c.recordStale {
      return RecordStale;
    }
    if c.thinkDue {
      return ThinkRequired;
    }
    answer := if ctx.executed + |g.allowed| >= ctx.budget then BudgetExhausted else Admitted;
  }

  method Record(gate: Gate, c: ToolCall, answer: Answer) returns (g: Gate)
    ensures g == Recorded(gate, c, answer)
  {
    g := gate;
    if answer.IdentityError? || answer.ArgumentError? || answer.BudgetExhausted? {
      return;
    }
    g := g.(signatures := g.signatures + {SignatureOf(c)});
    if answer.BatchDuplicate? {
      return;
    }
    if c.fingerprint.Some? {
      g := g.(fingerprints := g.fingerprints + {c.fingerprint.value});
    }
    if answer.Admitted? {
      g := g.(artifactReads := g.artifactReads + if c.artifactRead then 1 else 0, allowed := g.allowed + [c],
              projected := Again(g.projected, FailureOf(c)));
    }
  }

  /** The answers to the first n calls. */
  function Answers(ctx: Context, calls: seq<ToolCall>, n: nat): seq<Answer>
    requires n <= |calls|
  {
    if n == 0 then [] else Answers(ctx, calls, n - 1) + [Answered(ctx, Through(ctx, calls, n - 1), calls[n - 1])]
  }

  lemma {:induction false} NextAnswer(ctx: Context, calls: seq<ToolCall>, n: nat, g: Gate, answer: Answer)
    requires n < |calls| && g == Through(ctx, calls, n) && answer == Answered(ctx, g, calls[n])
    ensures Answers(ctx, calls, n + 1) == Answers(ctx, calls, n) + [answer]
    ensures Through(ctx, calls, n + 1) == Recorded(g, calls[n], answer)
  {}

  /** The batch loop: the calls to execute, and an answer for each call, in order. */
  method SelectCalls(ctx: Context, calls: seq<ToolCall>) returns (allowed: seq<ToolCall>, answers: seq<Answer>)
    ensures allowed == AllowedOf(ctx, calls)
    ensures answers == Answers(ctx, calls, |calls|)
  {
    var g := OpenGate(ctx);
    answers := [];
    for i := 0 to |calls|
      invariant g == Through(ctx, calls, i)
      invariant answers == Answers(ctx, calls, i)
    {
      var answer := Judge(ctx, g, calls[i]);
      NextAnswer(ctx, calls, i, g, answer);
      answers := answers + [answer];
      g := Record(g, calls[i], answer);
    }
    allowed := g.allowed;
  }

  // Properties of one batch

  /** The projection behind the given calls. */
  function Projected(s: Streak, calls: seq<ToolCall>): Streak {
    if calls == [] then s else Again(Projected(s, calls[..|calls| - 1]), FailureOf(calls[|calls| - 1]))
  }

  /** The k-th executed call was not projected to be one failure too many. */
  predicate WithinLimit(s: Streak, calls: seq<ToolCall>, k: nat)
    requires k < |calls|
  {
    var p := Projected(s, calls[..k]);
    p.failure == Some(FailureOf(calls[k])) ==> p.count < FAILURE_LIMIT
  }

  /** No two executed calls are the same action, unless the later one is forced. */
  predicate Distinct(calls: seq<ToolCall>, i: nat, j: nat)
    requires i < j < |calls|
  {
    && SignatureOf(calls[i]) != SignatureOf(calls[j])
    && (calls[i].fingerprint.Some? && calls[i].fingerprint == calls[j].fingerprint ==> calls[j].force)
  }

  /** The loop guard lets the call pass. */
  predicate Unseen(ctx: Context, c: ToolCall) {
    c.fingerprint.Some? && !c.force ==> !InRecent(ctx.recent, c.fingerprint.value)
  }

  ghost predicate Remembered(g: Gate, c: ToolCall) {
    SignatureOf(c) in g.signatures && (c.fingerprint.Some? ==> c.fingerprint.value in g.fingerprints)
  }

  ghost predicate Sound(ctx: Context, g: Gate) {
    && g.projected == Projected(ctx.streak, g.allowed)
    && (forall k: nat {:trigger WithinLimit(ctx.streak, g.allowed, k)} :: k < |g.allowed| ==>
          WithinLimit(ctx.streak, g.allowed, k))
    && (forall i: nat, j: nat {:trigger Distinct(g.allowed, i, j)} :: i < j < |g.allowed| ==> Distinct(g.allowed, i, j))
    && (forall k {:trigger g.allowed[k]} :: 0 <= k < |g.allowed| ==>
          Remembered(g, g.allowed[k]) && Unseen(ctx, g.allowed[k]))
    && ctx.executed + |g.allowed| <= Larger(ctx.executed, ctx.budget)
  }

  function Larger(a: nat, b: nat): nat { if a > b then a else b }

  lemma {:induction false} AdmitKeeps(ctx: Context, g: Gate, c: ToolCall)
    requires Sound(ctx, g) && Answered(ctx, g, c).Admitted?
    ensures Sound(ctx, Admit(g, c))
  {
    var calls := g.allowed + [c];
    assert calls[..|calls| - 1] == g.allowed;
    forall k: nat | k < |calls|
      ensures WithinLimit(ctx.streak, calls, k)
    {
      if k < |g.allowed| {
        assert WithinLimit(ctx.streak, g.allowed, k);
        assert calls[..k] == g.allowed[..k];
      }
    }
    forall i: nat, j: nat | i < j < |calls|
      ensures Distinct(calls, i, j)
    {
      if j < |g.allowed| {
        assert Distinct(g.allowed, i, j);
      } else {
        assert Remembered(g, g.allowed[i]);
      }
    }
  }

  lemma {:induction false} RefusalKeeps(ctx: Context, g: Gate, c: ToolCall, answer: Answer)
    requires Sound(ctx, g) && !answer.Admitted?
    ensures Sound(ctx, Recorded(g, c, answer))
  {}

  lemma {:induction false} ThroughSound(ctx: Context, calls: seq<ToolCall>, n: nat)
    requires n <= |calls|
    ensures Sound(ctx, Through(ctx, calls, n))
  {
    if n > 0 {
      ThroughSound(ctx, calls, n - 1);
      var g, c := Through(ctx, calls, n - 1), calls[n - 1];
      var answer := Answered(ctx, g, c);
      assert Sound(ctx, Recorded(g, c, answer)) by {
        if answer.Admitted? {
          AdmitKeeps(ctx, g, c);
        } else {
          RefusalKeeps(ctx, g, c, answer);
        }
      }
    }
  }

  // A whole process

  datatype Execution = Execution(call: ToolCall, failed: bool)

  function After(s: Streak, e: Execution): Streak {
    if e.failed then Again(s, FailureOf(e.call)) else NO_STREAK
  }

  /** The streak the results of a history leave. */
  function StreakOf(history: seq<Execution>): Streak {
    if history == [] then NO_STREAK else After(StreakOf(history[..|history| - 1]), history[|history| - 1])
  }

  /** The results of a batch are taken over one by one. */
  method TakeResults(streak: Streak, results: seq<Execution>, ghost history: seq<Execution>) returns (s: Streak)
    requires streak == StreakOf(history)
    ensures s == StreakOf(history + results)
  {
    s := streak;
    assert history + results[..0] == history;
    for i := 0 to |results|
      invariant s == StreakOf(history + results[..i])
    {
      var e := results[i];
      var h := history + results[..i + 1];
      assert h[..|h| - 1] == history + results[..i] && h[|h| - 1] == e;
      if e.failed {
        if s.failure == Some(FailureOf(e.call)) {
          s := Streak(s.failure, s.count + 1);
        } else {
          s := Streak(Some(FailureOf(e.call)), 1);
        }
      } else {
        s := NO_STREAK;
      }
    }
    assert results[..|results|] == results;
  }

  /** The real streak is none, or the projected failure at most as often as projected. */
  predicate Covers(projected: Streak, actual: Streak) {
    actual.failure.None? || (actual.failure == projected.failure && actual.count <= projected.count)
  }

  ghost predicate Calls(results: seq<Execution>, calls: seq<ToolCall>) {
    |results| == |calls| && forall k :: 0 <= k < |results| ==> results[k].call == calls[k]
  }

  /** No failure happens more often than the limit at any point of the history. */
  ghost predicate Limited(history: seq<Execution>) {
    forall n: nat {:trigger history[..n]} :: n <= |history| ==> StreakOf(history[..n]).count <= FAILURE_LIMIT
  }

  lemma {:induction false} LimitedMore(h: seq<Execution>, e: Execution)
    requires Limited(h) && StreakOf(h + [e]).count <= FAILURE_LIMIT
    ensures Limited(h + [e])
  {
    var t := h + [e];
    forall m: nat | m <= |t|
      ensures StreakOf(t[..m]).count <= FAILURE_LIMIT
    {
      if m <= |h| {
        assert t[..m] == h[..m];
      } else {
        assert t[..m] == t;
      }
    }
  }

  lemma {:induction false} StreakMore(h: seq<Execution>, e: Execution)
    ensures StreakOf(h + [e]) == After(StreakOf(h), e)
  {
    assert (h + [e])[..|h|] == h;
  }

  lemma {:induction false} CoversMore(projected: Streak, actual: Streak, e: Execution)
    requires Covers(projected, actual) && actual.count <= FAILURE_LIMIT
    requires actual.failure.None? ==> actual.count == 0
    requires projected.failure == Some(FailureOf(e.call)) ==> projected.count < FAILURE_LIMIT
    ensures Covers(Again(projected, FailureOf(e.call)), After(actual, e)) && After(actual, e).count <= FAILURE_LIMIT
  {}

  lemma {:induction false} NoFailureNoCount(h: seq<Execution>)
    ensures StreakOf(h).failure.None? ==> StreakOf(h).count == 0
  {
    if h != [] {
      NoFailureNoCount(h[..|h| - 1]);
    }
  }

  lemma {:induction false} ProjectedMore(s: Streak, calls: seq<ToolCall>, n: nat)
    requires n < |calls|
    ensures Projected(s, calls[..n + 1]) == Again(Projected(s, calls[..n]), FailureOf(calls[n]))
  {
    assert calls[..n + 1][..n] == calls[..n];
  }

  /** Executing n calls of a batch: the projection covers the real streak, which stays
      within the limit. */
  lemma {:induction false} ProjectionCovers(history: seq<Execution>, results: seq<Execution>, calls: seq<ToolCall>,
                                            n: nat)
    requires Calls(results, calls) && n <= |calls| && Limited(history)
    requires forall k: nat {:trigger WithinLimit(StreakOf(history), calls, k)} :: k < |calls| ==>
        WithinLimit(StreakOf(history), calls, k)
    ensures Covers(Projected(StreakOf(history), calls[..n]), StreakOf(history + results[..n]))
    ensures Limited(history + results[..n])
  {
    var s := StreakOf(history);
    if n == 0 {
      assert history + results[..0] == history && calls[..0] == [];
    } else {
      ProjectionCovers(history, results, calls, n - 1);
      var before, e := history + results[..n - 1], results[n - 1];
      assert history + results[..n] == before + [e];
      assert StreakOf(before).count <= FAILURE_LIMIT by {
        assert before[..|before|] == before;
      }
      assert WithinLimit(s, calls, n - 1);
      StreakMore(before, e);
      NoFailureNoCount(before);
      ProjectedMore(s, calls, n - 1);
      CoversMore(Projected(s, calls[..n - 1]), StreakOf(before), e);
      LimitedMore(before, e);
    }
  }

  /** A process so far: executions counted against the budget, and their results. */
  datatype Process = Process(executed: nat, history: seq<Execution>, stopped: bool)

  const STARTED := Process(0, [], false)

  /** One batch: what it starts from, its calls, and whether each executed call failed;
      None when the execution itself is aborted, which ends the process. */
  datatype Batch = Batch(recent: seq<string>, artifactReads: nat, calls: seq<ToolCall>, failed: Option<seq<bool>>)

  function ContextOf(p: Process, b: Batch, budget: nat): Context {
    Context(b.recent, StreakOf(p.history), p.executed, budget, b.artifactReads)
  }

  predicate Fits(p: Process, b: Batch, budget: nat) {
    !p.stopped && (b.failed.Some? ==> |b.failed.value| == |AllowedOf(ContextOf(p, b, budget), b.calls)|)
  }

  function Executed(calls: seq<ToolCall>, failed: seq<bool>): (r: seq<Execution>)
    requires |calls| == |failed|
    ensures Calls(r, calls)
  {
    seq(|calls|, k requires 0 <= k < |calls| => Execution(calls[k], failed[k]))
  }

  function Perform(p: Process, b: Batch, budget: nat): Process
    requires Fits(p, b, budget)
  {
    var calls := AllowedOf(ContextOf(p, b, budget), b.calls);
    match b.failed
    case None => Process(p.executed + |calls|, p.history, true)
    case Some(failed) => Process(p.executed + |calls|, p.history + Executed(calls, failed), false)
  }

  ghost predicate Held(p: Process, budget: nat) {
    p.executed <= budget && |p.history| <= p.executed && Limited(p.history)
  }

  lemma {:induction false} PerformKeeps(p: Process, b: Batch, budget: nat)
    requires Held(p, budget) && Fits(p, b, budget)
    ensures Held(Perform(p, b, budget), budget)
  {
    var ctx := ContextOf(p, b, budget);
    var calls := AllowedOf(ctx, b.calls);
    ThroughSound(ctx, b.calls, |b.calls|);
    if b.failed.Some? {
      var results := Executed(calls, b.failed.value);
      ProjectionCovers(p.history, results, calls, |calls|);
      assert results[..|calls|] == results;
    }
  }

  ghost predicate Runs(p: Process, bs: seq<Batch>, q: Process, budget: nat)
    decreases |bs|
  {
    if bs == [] then p == q else Fits(p, bs[0], budget) && Runs(Perform(p, bs[0], budget), bs[1..], q, budget)
  }

  lemma {:induction false} RunsKeep(p: Process, bs: seq<Batch>, q: Process, budget: nat)
    requires Held(p, budget) && Runs(p, bs, q, budget)
    ensures Held(q, budget)
    decreases |bs|
  {
    if bs != [] {
      PerformKeeps(p, bs[0], budget);
      RunsKeep(Perform(p, bs[0], budget), bs[1..], q, budget);
    }
  }

  /** Three executions in a row fail with the same signature. */
  predicate FailsThrice(h: seq<Execution>, i: nat)
    requires i + 2 < |h|
  {
    && h[i].failed && h[i + 1].failed && h[i + 2].failed
    && FailureOf(h[i].call) == FailureOf(h[i + 1].call) == FailureOf(h[i + 2].call)
  }

  lemma {:induction false} ThriceCounts(h: seq<Execution>, i: nat)
    requires i + 2 < |h| && FailsThrice(h, i)
    ensures StreakOf(h[..i + 3]).count >= 3
  {
    assert h[..i + 3][..i + 2] == h[..i + 2] && h[..i + 2][..i + 1] == h[..i + 1];
    assert h[..i + 1][..i] == h[..i];
    var a, b := StreakOf(h[..i + 1]), StreakOf(h[..i + 2]);
    assert a.failure == Some(FailureOf(h[i].call)) && a.count >= 1;
    assert b.failure == a.failure && b.count == a.count + 1;
  }

  /** Whatever the batches, the results and the force flags: executions never exceed the
      budget, and no three executions in a row with the same failure signature all fail. */
  lemma {:induction false} NeverThreeInARow(bs: seq<Batch>, q: Process, budget: nat, i: nat)
    requires Runs(STARTED, bs, q, budget)
    ensures q.executed <= budget && |q.history| <= budget
    ensures i + 2 < |q.history| ==> !FailsThrice(q.history, i)
  {
    assert Limited([]);
    RunsKeep(STARTED, bs, q, budget);
    if i + 2 < |q.history| && FailsThrice(q.history, i) {
      ThriceCounts(q.history, i);
    }
  }
}
