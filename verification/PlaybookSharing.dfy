/** Recording a rule in a shared playbook: read, merge, write against the revision that was
    read, and try once more after a conflict. */
module PlaybookSharing {
  import opened Text
  import opened Playbook
  import opened PlaybookRules

  /** The revision of a text; `None` stands for an absent file. */
  type Revision = string -> string

  const ABSENT := "absent"

  function RevisionOf(file: Option<string>, revision: Revision): string {
    match file case None => ABSENT case Some(text) => revision(text)
  }

  function TextOf(file: Option<string>): string {
    match file case None => "" case Some(text) => text
  }

  /** The revision tells the two files apart if they differ. */
  predicate NoCollision(a: Option<string>, b: Option<string>, revision: Revision) {
    RevisionOf(a, revision) == RevisionOf(b, revision) ==> a == b
  }

  datatype Outcome = Success | Conflict | EmptyRule | Full

  // One recorder

  /** The playbook file, written only against the revision the writer expects. */
  class PlaybookFile {
    var file: Option<string>

    constructor ()
      ensures file == None
    {
      file := None;
    }

    method WriteBytes(text: string, expected: string, revision: Revision) returns (written: bool)
      modifies this
      ensures written <==> RevisionOf(old(file), revision) == expected
      ensures file == if written then Some(text) else old(file)
    {
      var current := RevisionOf(file, revision);
      if expected != current {
        return false;
      }
      file := Some(text);
      written := true;
    }

    /** One try: read, merge, write. Another writer may replace the file between the read
        and the write; `between` is what it holds then. */
    method TryRecord(section: Section, rule: string, revision: Revision, between: Option<string>)
      returns (outcome: Outcome)
      requires NoCollision(file, between, revision)
      modifies this
      ensures outcome.Full? <==> |Merge(TextOf(old(file)), section, rule)| > MAX_CHARS
      ensures outcome.Full? ==> file == old(file)
      ensures outcome.Success? ==> file == Some(Merge(TextOf(between), section, rule))
      ensures outcome.Success? || outcome.Full? || (outcome.Conflict? && file == between && between != old(file))
    {
      var read := file;
      var merged := MergePlaybookRule(TextOf(read), section, rule);
      if |merged| > MAX_CHARS {
        return Full;
      }
      file := between;
      var written := WriteBytes(merged, RevisionOf(read, revision), revision);
      outcome := if written then Success else Conflict;
    }

    /** tool_record_playbook: a success overwrites exactly the text the rule was merged into. */
    method RecordPlaybook(section: Section, content: string, revision: Revision, first: Option<string>,
                          second: Option<string>)
      returns (outcome: Outcome)
      requires NoCollision(file, first, revision) && NoCollision(first, second, revision)
      modifies this
      ensures outcome.EmptyRule? <==> Key(content) == ""
      ensures outcome.EmptyRule? ==> file == old(file)
      ensures outcome.Success? ==>
        || file == Some(Merge(TextOf(first), section, Key(content)))
        || file == Some(Merge(TextOf(second), section, Key(content)))
      ensures outcome.Conflict? ==> file == second && first != old(file) && second != first
    {
      var rule := Key(content);
      if rule == "" {
        return EmptyRule;
      }
      outcome := TryRecord(section, rule, revision, first);
      if outcome.Conflict? {
        outcome := TryRecord(section, rule, revision, second);
      }
    }
  }

  // Many recorders

  datatype Call = Call(section: Section, content: string)

  /** A recorder before its next try, holding what it read, or done. */
  datatype Recorder =
    | Waiting(call: Call, tries: nat)
    | Holding(call: Call, seen: Option<string>, tries: nat)
    | Done(call: Call, outcome: Outcome)

  /** The shared file and everybody recording into it. */
  datatype Shared = Shared(file: Option<string>, recorders: seq<Recorder>)

  datatype Step = Read(who: nat) | Write(who: nat)

  predicate Enabled(s: Shared, step: Step) {
    match step
    case Read(i) => i < |s.recorders| && s.recorders[i].Waiting?
    case Write(i) => i < |s.recorders| && s.recorders[i].Holding?
  }

  function AfterRead(s: Shared, i: nat): Shared
    requires Enabled(s, Read(i))
  {
    var r := s.recorders[i];
    var rule := Key(r.call.content);
    var next :=
      if rule == "" then Done(r.call, EmptyRule)
      else if |Merge(TextOf(s.file), r.call.section, rule)| > MAX_CHARS then Done(r.call, Full)
      else Holding(r.call, s.file, r.tries);
    s.(recorders := s.recorders[i := next])
  }

  /** A write succeeds exactly if the file still has the revision that was read. */
  function AfterWrite(s: Shared, i: nat, revision: Revision): Shared
    requires Enabled(s, Write(i))
  {
    var r := s.recorders[i];
    if RevisionOf(s.file, revision) == RevisionOf(r.seen, revision) then
      Shared(Some(Merge(TextOf(r.seen), r.call.section, Key(r.call.content))), s.recorders[i := Done(r.call, Success)])
    else if r.tries == 0 then s.(recorders := s.recorders[i := Waiting(r.call, 1)])
    else s.(recorders := s.recorders[i := Done(r.call, Conflict)])
  }

  function Next(s: Shared, step: Step, revision: Revision): Shared
    requires Enabled(s, step)
  {
    match step
    case Read(i) => AfterRead(s, i)
    case Write(i) => AfterWrite(s, i, revision)
  }

  /** The rule a recorder writes: the key of a key. */
  function Recorded(c: Call): string { Key(Key(c.content)) }

  predicate Succeeded(r: Recorder) {
    r.Done? && r.outcome.Success? && Recorded(r.call) != ""
  }

  /** Every successful recorder's rule is in the file. */
  ghost predicate NothingLost(s: Shared) {
    forall i {:trigger s.recorders[i]} :: 0 <= i < |s.recorders| && Succeeded(s.recorders[i]) ==>
      Recorded(s.recorders[i].call) in Rules(TextOf(s.file))
  }

  /** A write compares no two different files of the same revision. */
  predicate TellsApart(s: Shared, step: Step, revision: Revision)
    requires Enabled(s, step)
  {
    step.Write? ==> NoCollision(s.file, s.recorders[step.who].seen, revision)
  }

  /** A write leaves the file alone, or merges the recorder's rule into exactly the text it
      overwrites. */
  lemma {:induction false} WriteMergesIntoCurrent(s: Shared, i: nat, revision: Revision)
    requires Enabled(s, Write(i)) && TellsApart(s, Write(i), revision)
    ensures var r, t := s.recorders[i], AfterWrite(s, i, revision);
      if t.recorders[i] == Done(r.call, Success)
      then t.file == Some(Merge(TextOf(s.file), r.call.section, Key(r.call.content)))
      else t.file == s.file
  {}

  lemma {:induction false} SuccessRecords(text: string, c: Call)
    ensures Rules(text) <= Rules(Merge(text, c.section, Key(c.content)))
    ensures Recorded(c) != "" ==> Recorded(c) in Rules(Merge(text, c.section, Key(c.content)))
  {
    MergedRules(text, c.section, Key(c.content));
  }

  lemma {:induction false} OthersWait(s: Shared, step: Step, revision: Revision)
    requires Enabled(s, step)
    ensures var t := Next(s, step, revision);
      |t.recorders| == |s.recorders|
        && (forall i :: 0 <= i < |s.recorders| && i != step.who ==> t.recorders[i] == s.recorders[i])
    ensures step.Read? ==>
      Next(s, step, revision).file == s.file && !Succeeded(Next(s, step, revision).recorders[step.who])
    ensures step.Write? && Succeeded(Next(s, step, revision).recorders[step.who]) ==>
      Next(s, step, revision).recorders[step.who] == Done(s.recorders[step.who].call, Success)
  {}

  /** The rules of the file before a step are there after it, and a recorder that just
      succeeded finds its own. */
  lemma {:induction false} StepRecords(s: Shared, step: Step, revision: Revision, t: Shared)
    requires Enabled(s, step) && TellsApart(s, step, revision) && t == Next(s, step, revision)
        && |t.recorders| == |s.recorders|
    ensures Rules(TextOf(s.file)) <= Rules(TextOf(t.file))
    ensures Succeeded(t.recorders[step.who]) ==> Recorded(t.recorders[step.who].call) in Rules(TextOf(t.file))
  {
    OthersWait(s, step, revision);
    if step.Write? {
      WriteMergesIntoCurrent(s, step.who, revision);
      SuccessRecords(TextOf(s.file), s.recorders[step.who].call);
    }
  }

  lemma {:induction false} StepKeeps(s: Shared, step: Step, revision: Revision)
    requires Enabled(s, step) && TellsApart(s, step, revision) && NothingLost(s)
    ensures NothingLost(Next(s, step, revision)) && Rules(TextOf(s.file)) <= Rules(TextOf(Next(s, step, revision).file))
  {
    var t := Next(s, step, revision);
    OthersWait(s, step, revision);
    StepRecords(s, step, revision, t);
    var before, after := Rules(TextOf(s.file)), Rules(TextOf(t.file));
    forall i | 0 <= i < |t.recorders| && Succeeded(t.recorders[i])
      ensures Recorded(t.recorders[i].call) in after
    {
      assert i != step.who ==> t.recorders[i] == s.recorders[i];
    }
  }

  /** A run from s to t in which the revision tells the files apart that it compares. */
  predicate Leads(s: Shared, steps: seq<Step>, t: Shared, revision: Revision)
    decreases |steps|
  {
    if steps == [] then s == t
    else Enabled(s, steps[0]) && TellsApart(s, steps[0], revision)
         && Leads(Next(s, steps[0], revision), steps[1..], t, revision)
  }

  /** Under any interleaving of recorders, no rule of the file and no successfully recorded
      rule is lost. */
  lemma {:induction false} NoRuleLost(s: Shared, steps: seq<Step>, t: Shared, revision: Revision)
    requires NothingLost(s) && Leads(s, steps, t, revision)
    ensures NothingLost(t) && Rules(TextOf(s.file)) <= Rules(TextOf(t.file))
    decreases |steps|
  {
    if steps != [] {
      StepKeeps(s, steps[0], revision);
      NoRuleLost(Next(s, steps[0], revision), steps[1..], t, revision);
    }
  }

  lemma {:induction false} UnbulletedIsTight(k: string)
    requires Neat(k) && k != ""
    ensures Unbulleted(k) != "" && Tight(Unbulleted(k))
  {
    if Unbulleted(k) != k {
      assert k[1] == ' ' && !IsSpace(k[2]);
      assert k[1..] == [' '] + k[2..];
      LStripLeading(' ', k[2..]);
    }
  }

  /** A success records something exactly if the rule's key does not start like a heading. */
  lemma {:induction false} RecordedIff(section: Section, content: string)
    requires Key(content) != ""
    ensures Recorded(Call(section, content)) != "" <==> Key(content)[0] != '#'
  {
    var k := Key(content);
    KeyNeat(content);
    StripTight(k);
    UnbulletedIsTight(k);
    StripTight(Unbulleted(k));
    CollapsedStart(Unbulleted(k), 0, false);
  }

  /** The exception is real: the rule "- # x" is answered with success and not recorded. */
  lemma {:induction false} HeadingIsNotRecorded(text: string, section: Section)
    ensures Key("- # x") == "# x" && Recorded(Call(section, "- # x")) == ""
    ensures Rules(Merge(text, section, Key("- # x"))) == Rules(text)
  {
    assert "- # x" == "- " + "# x";
    KeyOfBullet("# x");
    StripTight("# x");
    MergedRules(text, section, "# x");
  }

  // Tries

  /** How often a recorder writes. */
  function Tries(steps: seq<Step>, i: nat): nat {
    if steps == [] then 0 else Tries(steps[1..], i) + if steps[0] == Write(i) then 1 else 0
  }

  /** What a recorder that has tried n times before may be after m more tries. */
  predicate HasTried(r: Recorder, c: Call, n: nat) {
    && r.call == c
    && match r
       case Waiting(_, tries) => tries == n && n <= 1
       case Holding(_, _, tries) => tries == n && n <= 1 && Key(c.content) != ""
       case Done(_, Success) => 1 <= n <= 2 && Key(c.content) != ""
       case Done(_, Conflict) => n == 2 && Key(c.content) != ""
       case Done(_, EmptyRule) => n <= 1 && Key(c.content) == ""
       case Done(_, Full) => n <= 1 && Key(c.content) != ""
  }

  lemma {:induction false} OwnTry(s: Shared, step: Step, revision: Revision, c: Call, n: nat)
    requires Enabled(s, step) && HasTried(s.recorders[step.who], c, n)
    ensures HasTried(Next(s, step, revision).recorders[step.who], c, n + if step.Write? then 1 else 0)
  {}

  lemma {:induction false} OneTry(s: Shared, step: Step, revision: Revision, i: nat, c: Call, n: nat)
    requires Enabled(s, step) && i < |s.recorders| && HasTried(s.recorders[i], c, n)
    ensures var t := Next(s, step, revision);
      |t.recorders| == |s.recorders| && HasTried(t.recorders[i], c, n + if step == Write(i) then 1 else 0)
  {
    OthersWait(s, step, revision);
    if step.who == i {
      OwnTry(s, step, revision, c, n);
    }
  }

  lemma {:induction false} TriesAdd(s: Shared, steps: seq<Step>, t: Shared, revision: Revision, i: nat, c: Call, n: nat)
    requires Leads(s, steps, t, revision) && i < |s.recorders| && HasTried(s.recorders[i], c, n)
    ensures i < |t.recorders| && HasTried(t.recorders[i], c, n + Tries(steps, i))
    decreases |steps|
  {
    if steps != [] {
      OneTry(s, steps[0], revision, i, c, n);
      TriesAdd(Next(s, steps[0], revision), steps[1..], t, revision, i, c, n + if steps[0] == Write(i) then 1 else 0);
    }
  }

  /** Over every run a recorder writes at most twice; it answers a conflict only after two
      writes, a success after one or two, and an empty rule without any. */
  lemma {:induction false} TwoTriesAtMost(s: Shared, steps: seq<Step>, t: Shared, revision: Revision, i: nat, c: Call)
    requires Leads(s, steps, t, revision) && i < |s.recorders| && s.recorders[i] == Waiting(c, 0)
    ensures i < |t.recorders| && HasTried(t.recorders[i], c, Tries(steps, i)) && Tries(steps, i) <= 2
  {
    TriesAdd(s, steps, t, revision, i, c, 0);
  }

  // Length

  /** The file, and what any recorder is about to write, is within the limit. */
  ghost predicate AllShort(s: Shared) {
    && |TextOf(s.file)| <= MAX_CHARS
    && forall i {:trigger s.recorders[i]} :: 0 <= i < |s.recorders| && s.recorders[i].Holding? ==>
         WritesShort(s.recorders[i])
  }

  predicate WritesShort(r: Recorder)
    requires r.Holding?
  {
    |Merge(TextOf(r.seen), r.call.section, Key(r.call.content))| <= MAX_CHARS
  }

  lemma {:induction false} ReadShort(s: Shared, i: nat) returns (r: Recorder)
    requires Enabled(s, Read(i))
    ensures r == AfterRead(s, i).recorders[i] && AfterRead(s, i).file == s.file && (r.Holding? ==> WritesShort(r))
  {
    r := AfterRead(s, i).recorders[i];
  }

  lemma {:induction false} WriteShort(s: Shared, i: nat, revision: Revision)
    requires Enabled(s, Write(i)) && |TextOf(s.file)| <= MAX_CHARS && WritesShort(s.recorders[i])
    ensures var t := AfterWrite(s, i, revision); |TextOf(t.file)| <= MAX_CHARS && !t.recorders[i].Holding?
  {}

  lemma {:induction false} OwnStepShort(s: Shared, step: Step, revision: Revision)
    requires Enabled(s, step) && |TextOf(s.file)| <= MAX_CHARS
    requires s.recorders[step.who].Holding? ==> WritesShort(s.recorders[step.who])
    ensures var t := Next(s, step, revision);
      |TextOf(t.file)| <= MAX_CHARS && (t.recorders[step.who].Holding? ==> WritesShort(t.recorders[step.who]))
  {
    match step {
      case Read(i) => var r := ReadShort(s, i);
      case Write(i) => WriteShort(s, i, revision);
    }
  }

  lemma {:induction false} StepStaysShort(s: Shared, step: Step, revision: Revision)
    requires Enabled(s, step) && AllShort(s)
    ensures AllShort(Next(s, step, revision))
  {
    var before, after := s.recorders, Next(s, step, revision).recorders;
    OthersWait(s, step, revision);
    assert before[step.who].Holding? ==> WritesShort(before[step.who]);
    OwnStepShort(s, step, revision);
    forall i | 0 <= i < |after| && after[i].Holding?
      ensures WritesShort(after[i])
    {
      assert i != step.who ==> after[i] == before[i];
    }
  }

  /** Over every run of recorders a file within the limit stays within it. */
  lemma {:induction false} FileStaysShort(s: Shared, steps: seq<Step>, t: Shared, revision: Revision)
    requires AllShort(s) && Leads(s, steps, t, revision)
    ensures AllShort(t)
    decreases |steps|
  {
    if steps != [] {
      StepStaysShort(s, steps[0], revision);
      FileStaysShort(Next(s, steps[0], revision), steps[1..], t, revision);
    }
  }

  /** A recorder answers that the playbook is full exactly if its rule would not fit. */
  lemma {:induction false} FullIff(s: Shared, i: nat, revision: Revision)
    requires Enabled(s, Read(i)) && Key(s.recorders[i].call.content) != ""
    ensures var c, r := s.recorders[i].call, Next(s, Read(i), revision).recorders[i];
      && (r == Done(c, Full) <==> |Merge(TextOf(s.file), c.section, Key(c.content))| > MAX_CHARS)
      && (r != Done(c, Full) ==> r == Holding(c, s.file, s.recorders[i].tries))
  {}
}
