/** Exactly which calls of a batch are executed, and what a refusal says of its call. */
module AdmissionAnswers {
  import opened Text
  import opened Admission

  /** The answer to call i of a batch. */
  function AnswerOf(ctx: Context, calls: seq<ToolCall>, i: nat): Answer
    requires i < |calls|
  {
    Answered(ctx, Through(ctx, calls, i), calls[i])
  }

  /** Call i is one the batch knows again: it passed the checks of its id and arguments and
      was not held back by the budget. */
  predicate Known(ctx: Context, calls: seq<ToolCall>, i: nat)
    requires i < |calls|
  {
    var a := AnswerOf(ctx, calls, i);
    a != IdentityError && a != ArgumentError && a != BudgetExhausted
  }

  /** An earlier known call has this name and these arguments. */
  ghost predicate SameBefore(ctx: Context, calls: seq<ToolCall>, n: nat, s: Signature)
    requires n <= |calls|
  {
    exists j: nat {:trigger Known(ctx, calls, j)} :: j < n && Known(ctx, calls, j) && SignatureOf(calls[j]) == s
  }

  /** An earlier known call that was no duplicate itself has this fingerprint. */
  ghost predicate FingerprintBefore(ctx: Context, calls: seq<ToolCall>, n: nat, f: string)
    requires n <= |calls|
  {
    exists j: nat {:trigger Known(ctx, calls, j)} ::
      j < n && Known(ctx, calls, j) && AnswerOf(ctx, calls, j) != BatchDuplicate && calls[j].fingerprint == Some(f)
  }

  /** The executed calls among the first n, in order. */
  function ExecutedBefore(ctx: Context, calls: seq<ToolCall>, n: nat): seq<ToolCall>
    requires n <= |calls|
  {
    if n == 0 then []
    else if AnswerOf(ctx, calls, n - 1) == Admitted then ExecutedBefore(ctx, calls, n - 1) + [calls[n - 1]]
    else ExecutedBefore(ctx, calls, n - 1)
  }

  function ArtifactReads(calls: seq<ToolCall>): nat {
    if calls == [] then 0
    else ArtifactReads(calls[..|calls| - 1]) + if calls[|calls| - 1].artifactRead then 1 else 0
  }

  lemma {:induction false} SameStep(ctx: Context, calls: seq<ToolCall>, n: nat, s: Signature)
    requires n < |calls|
    ensures SameBefore(ctx, calls, n + 1, s)
            <==> SameBefore(ctx, calls, n, s) || (Known(ctx, calls, n) && SignatureOf(calls[n]) == s)
  {}

  lemma {:induction false} FingerprintStep(ctx: Context, calls: seq<ToolCall>, n: nat, f: string)
    requires n < |calls|
    ensures FingerprintBefore(ctx, calls, n + 1, f)
            <==> FingerprintBefore(ctx, calls, n, f)
                 || (Known(ctx, calls, n) && AnswerOf(ctx, calls, n) != BatchDuplicate
                     && calls[n].fingerprint == Some(f))
  {}

  lemma {:induction false} ReadsMore(calls: seq<ToolCall>, c: ToolCall)
    ensures ArtifactReads(calls + [c]) == ArtifactReads(calls) + if c.artifactRead then 1 else 0
  {
    assert (calls + [c])[..|calls|] == calls;
  }

  lemma {:induction false} NextGate(ctx: Context, calls: seq<ToolCall>, n: nat) returns (g: Gate, a: Answer, h: Gate)
    requires n < |calls|
    ensures g == Through(ctx, calls, n) && a == AnswerOf(ctx, calls, n) && h == Through(ctx, calls, n + 1)
    ensures h == Recorded(g, calls[n], a)
  {
    g, a, h := Through(ctx, calls, n), AnswerOf(ctx, calls, n), Through(ctx, calls, n + 1);
  }

  /** What recording an answer adds to the gate. */
  lemma {:induction false} RecordedAdds(g: Gate, c: ToolCall, a: Answer, h: Gate, s: Signature, f: string)
    requires h == Recorded(g, c, a)
    ensures var known := a != IdentityError && a != ArgumentError && a != BudgetExhausted;
      && (s in h.signatures <==> s in g.signatures || (known && SignatureOf(c) == s))
      && (f in h.fingerprints <==> f in g.fingerprints || (known && a != BatchDuplicate && c.fingerprint == Some(f)))
      && h.allowed == (if a == Admitted then g.allowed + [c] else g.allowed)
      && h.artifactReads == g.artifactReads + if a == Admitted && c.artifactRead then 1 else 0
  {}

  lemma {:induction false} NextRemembers(ctx: Context, calls: seq<ToolCall>, n: nat, s: Signature, f: string)
    returns (g: Gate, h: Gate)
    requires n < |calls|
    ensures g == Through(ctx, calls, n) && h == Through(ctx, calls, n + 1)
    ensures s in h.signatures <==> s in g.signatures || (Known(ctx, calls, n) && SignatureOf(calls[n]) == s)
    ensures f in h.fingerprints <==>
      f in g.fingerprints
      || (Known(ctx, calls, n) && AnswerOf(ctx, calls, n) != BatchDuplicate && calls[n].fingerprint == Some(f))
  {
    var a;
    g, a, h := NextGate(ctx, calls, n);
    RecordedAdds(g, calls[n], a, h, s, f);
  }

  /** What the gate remembers is the calls before. */
  lemma {:induction false} GateHolds(ctx: Context, calls: seq<ToolCall>, n: nat, s: Signature, f: string)
    returns (g: Gate)
    requires n <= |calls|
    ensures g == Through(ctx, calls, n)
    ensures s in g.signatures <==> SameBefore(ctx, calls, n, s)
    ensures f in g.fingerprints <==> FingerprintBefore(ctx, calls, n, f)
  {
    if n == 0 {
      g := OpenGate(ctx);
    } else {
      var before := GateHolds(ctx, calls, n - 1, s, f);
      SameStep(ctx, calls, n - 1, s);
      FingerprintStep(ctx, calls, n - 1, f);
      before, g := NextRemembers(ctx, calls, n - 1, s, f);
    }
  }

  lemma {:induction false} GateRemembers(ctx: Context, calls: seq<ToolCall>, n: nat, s: Signature, f: string)
    requires n <= |calls|
    ensures s in Through(ctx, calls, n).signatures <==> SameBefore(ctx, calls, n, s)
    ensures f in Through(ctx, calls, n).fingerprints <==> FingerprintBefore(ctx, calls, n, f)
  {
    var g := GateHolds(ctx, calls, n, s, f);
  }

  lemma {:induction false} NextExecuted(ctx: Context, calls: seq<ToolCall>, n: nat, a: Answer, before: seq<ToolCall>)
    returns (x: seq<ToolCall>)
    requires n < |calls| && a == AnswerOf(ctx, calls, n) && before == ExecutedBefore(ctx, calls, n)
    ensures x == ExecutedBefore(ctx, calls, n + 1) && x == if a == Admitted then before + [calls[n]] else before
  {
    x := if a == Admitted then before + [calls[n]] else before;
  }

  lemma {:induction false} GateExecutes(ctx: Context, calls: seq<ToolCall>, n: nat) returns (g: Gate, x: seq<ToolCall>)
    requires n <= |calls|
    ensures g == Through(ctx, calls, n) && x == ExecutedBefore(ctx, calls, n)
    ensures g.allowed == x && g.artifactReads == ArtifactReads(x)
  {
    if n == 0 {
      g, x := OpenGate(ctx), [];
    } else {
      var before, a, h;
      g, before := GateExecutes(ctx, calls, n - 1);
      g, a, h := NextGate(ctx, calls, n - 1);
      x := NextExecuted(ctx, calls, n - 1, a, before);
      RecordedAdds(g, calls[n - 1], a, h, Signature("", ""), "");
      ReadsMore(before, calls[n - 1]);
      g := h;
    }
  }

  lemma {:induction false} GateCounts(ctx: Context, calls: seq<ToolCall>, n: nat)
    requires n <= |calls|
    ensures Through(ctx, calls, n).allowed == ExecutedBefore(ctx, calls, n)
    ensures Through(ctx, calls, n).artifactReads == ArtifactReads(ExecutedBefore(ctx, calls, n))
  {
    var g, x := GateExecutes(ctx, calls, n);
  }

  lemma {:induction false} GateProjects(ctx: Context, calls: seq<ToolCall>, n: nat)
    requires n <= |calls|
    ensures Through(ctx, calls, n).projected == Projected(ctx.streak, ExecutedBefore(ctx, calls, n))
  {
    ThroughSound(ctx, calls, n);
    GateCounts(ctx, calls, n);
  }

  /** The call, if executed next, would be the third of the same failure in a row. */
  ghost predicate OneTooMany(ctx: Context, executed: seq<ToolCall>, c: ToolCall) {
    var p := Projected(ctx.streak, executed);
    p.failure == Some(FailureOf(c)) && p.count >= 2
  }

  /** Call i is executed exactly if its id and arguments are in order; no known call before
      it is the same, or, unless it is forced, has its fingerprint; it is not projected to be
      one failure too many; unless forced, it is not within the loop window, no repeated
      observation, not known to be bad, and not the fourth artifact read in a chain; it owes
      no record and no thought; and the budget has room for it. */
  lemma {:induction false} ExecutedIff(ctx: Context, calls: seq<ToolCall>, i: nat)
    requires i < |calls|
    ensures var c, before := calls[i], ExecutedBefore(ctx, calls, i);
      AnswerOf(ctx, calls, i) == Admitted <==>
      && !c.identityError && !c.argumentError
      && !SameBefore(ctx, calls, i, SignatureOf(c))
      && (c.fingerprint.Some? && !c.force ==>
            !FingerprintBefore(ctx, calls, i, c.fingerprint.value) && c.fingerprint.value !in ctx.recent)
      && !OneTooMany(ctx, before, c)
      && (!c.force ==>
            !(c.name == "bash_exec" && c.observationRepeat) && !c.knownBad
            && (c.artifactRead ==> ctx.artifactReads + ArtifactReads(before) < 3))
      && !c.recordStale && !c.thinkDue
      && ctx.executed + |before| < ctx.budget
  {
    var c := calls[i];
    GateRemembers(ctx, calls, i, SignatureOf(c), if c.fingerprint.Some? then c.fingerprint.value else "");
    GateCounts(ctx, calls, i);
    GateProjects(ctx, calls, i);
    assert c.fingerprint.Some? ==> (InRecent(ctx.recent, c.fingerprint.value) <==> c.fingerprint.value in ctx.recent);
  }

  /** Two calls count as the same failure: one tool, and the same fingerprint where they are
      guarded, the same arguments where they are not. */
  lemma {:induction false} SameFailureIff(c: ToolCall, d: ToolCall)
    requires c.fingerprint.Some? <==> d.fingerprint.Some?
    ensures FailureOf(c) == FailureOf(d) <==>
      c.name == d.name && if c.fingerprint.Some? then c.fingerprint == d.fingerprint else c.arguments == d.arguments
  {}

  /** What speaks against a call, in the order of the checks. */
  ghost predicate Reason(ctx: Context, calls: seq<ToolCall>, i: nat, a: Answer)
    requires i < |calls|
  {
    var c, before := calls[i], ExecutedBefore(ctx, calls, i);
    match a
    case IdentityError => c.identityError
    case ArgumentError => c.argumentError
    case BatchDuplicate =>
      SameBefore(ctx, calls, i, SignatureOf(c))
      || (c.fingerprint.Some? && !c.force && FingerprintBefore(ctx, calls, i, c.fingerprint.value))
    case FailureLimit => OneTooMany(ctx, before, c)
    case LoopRepeat => c.fingerprint.Some? && !c.force && c.fingerprint.value in ctx.recent
    case ObservationRepeat => c.name == "bash_exec" && c.observationRepeat && !c.force
    case KnownBad => c.knownBad && !c.force
    case ArtifactChain => c.artifactRead && !c.force && ctx.artifactReads + ArtifactReads(before) >= 3
    case RecordStale => c.recordStale
    case ThinkRequired => c.thinkDue
    case BudgetExhausted => ctx.executed + |before| >= ctx.budget
    case Admitted => true
  }

  function Rank(a: Answer): nat {
    match a
    case IdentityError => 0
    case ArgumentError => 1
    case BatchDuplicate => 2
    case FailureLimit => 3
    case LoopRepeat => 4
    case ObservationRepeat => 5
    case KnownBad => 6
    case ArtifactChain => 7
    case RecordStale => 8
    case ThinkRequired => 9
    case BudgetExhausted => 10
    case Admitted => 11
  }

  /** The answer is the first that applies: its reason holds, and none before it. */
  lemma {:induction false} FirstReasonIsGiven(ctx: Context, calls: seq<ToolCall>, i: nat, other: Answer)
    requires i < |calls|
    ensures Reason(ctx, calls, i, AnswerOf(ctx, calls, i))
    ensures Rank(other) < Rank(AnswerOf(ctx, calls, i)) ==> !Reason(ctx, calls, i, other)
  {
    var c := calls[i];
    GateRemembers(ctx, calls, i, SignatureOf(c), if c.fingerprint.Some? then c.fingerprint.value else "");
    GateCounts(ctx, calls, i);
    GateProjects(ctx, calls, i);
    assert c.fingerprint.Some? ==> (InRecent(ctx.recent, c.fingerprint.value) <==> c.fingerprint.value in ctx.recent);
  }

  /** The calls the gate lets through are those executed. */
  lemma {:induction false} AllowedAreExecuted(ctx: Context, calls: seq<ToolCall>)
    ensures AllowedOf(ctx, calls) == ExecutedBefore(ctx, calls, |calls|)
  {
    GateCounts(ctx, calls, |calls|);
  }

  /** A process starts each batch from where it stands. It counts every executed call, and
      records it with its result, in order; a batch whose execution is aborted ends it. */
  lemma {:induction false} BatchIsRecorded(p: Process, b: Batch, budget: nat, k: nat)
    requires Fits(p, b, budget)
    ensures
      var ctx := Context(b.recent, StreakOf(p.history), p.executed, budget, b.artifactReads);
      var q, calls := Perform(p, b, budget), ExecutedBefore(ctx, b.calls, |b.calls|);
      && q.executed == p.executed + |calls| && (q.stopped <==> b.failed.None?)
      && (q.stopped ==> q.history == p.history)
      && (!q.stopped ==> |q.history| == |p.history| + |calls| && q.history[..|p.history|] == p.history)
      && (!q.stopped && k < |calls| ==> q.history[|p.history| + k] == Execution(calls[k], b.failed.value[k]))
  {
    AllowedAreExecuted(ContextOf(p, b, budget), b.calls);
  }
}
