/** What of the procedure is left by a flush, a compaction and the cuts behind them. */
module SummaryAnswers {
  import opened Text
  import opened TieredSummary
  import opened SummaryRoundTrip
  import opened SummaryWatermark
  import opened SummaryRewrites
  import opened SummaryIdempotence

  // Cutting the end of a text

  /** Place i is where the first whole line behind place k starts, or k if none does. */
  predicate BeginsWhole(t: string, k: nat, i: nat) {
    && k <= i <= |t|
    && (forall j :: k <= j < i - 1 ==> t[j] != '\n')
    && (if i == k then forall j :: k <= j < |t| ==> t[j] != '\n' else t[i - 1] == '\n')
  }

  lemma {:induction false} MarkedEndIs(t: string, i: nat, n: nat)
    requires i < |t| && Tight(t) && n <= |t|
    ensures Marked(t[i..], CUT_MARK, t[|t| - n..]) == CUT_MARK + t[i..]
  {
    assert t[i..][|t[i..]| - 1] == t[|t| - 1];
    MarkedIs(t[i..], CUT_MARK, t[|t| - n..]);
  }

  /** A text that fits is only stripped. Of a longer one the newest characters are left,
      from the first whole line on and behind a mark, if there is room for the mark. */
  lemma {:induction false} TailClipSays(text: string, n: nat) returns (t: string, i: nat)
    ensures t == Strip(text) && |TailClip(text, n)| <= n
    ensures |t| <= n ==> TailClip(text, n) == t
    ensures |t| > n && n <= 6 ==> TailClip(text, n) == t[|t| - n..]
    ensures |t| > n > 6 ==>
      BeginsWhole(t, |t| - (n - 6), i) && i < |t| && TailClip(text, n) == CUT_MARK + t[i..]
  {
    t := Strip(text);
    i := |t|;
    if |t| > n > 6 {
      i := CutAt(t, n);
      MarkedEndIs(t, i, n);
    }
  }

  lemma {:induction false} CutAt(t: string, n: nat) returns (i: nat)
    requires |t| > n > 6 && Tight(t)
    ensures BeginsWhole(t, |t| - (n - 6), i) && i < |t| && n == |CUT_MARK| + (n - 6)
    ensures Newest(t, n) == Marked(t[i..], CUT_MARK, t[|t| - n..])
  {
    var k := |t| - (n - 6);
    i := WholeFrom(t, k);
    var e := NewlineFrom(t, k);
    assert e < |t| ==> e < |t| - 1 by {
      assert !IsSpace(t[|t| - 1]) && IsSpace('\n');
    }
  }

  // What the parser collects

  /** Kinds of lines the parser takes into the procedure, those to be marked again counted
      as prose. */
  function Lax(l: string): Kind {
    var k := Classify(l);
    if k.Version? || k.Tier2Empty? then Prose else k
  }

  ghost predicate Proper(ls: seq<string>, kind: string -> Kind) {
    Settled(ls) && forall k {:trigger ls[k]} :: 0 <= k < |ls| ==>
      kind(ls[k]).Prose? || kind(ls[k]).Version? || kind(ls[k]).Tier2Empty?
  }

  lemma {:induction false} StepProper(st: State, l: string, kind: string -> Kind)
    requires Proper(st.tier3, kind) && l != "" && Tight(l) && OneLine(l)
    ensures Step(st, kind(l), l).Some? ==> Proper(Step(st, kind(l), l).value.tier3, kind)
  {}

  lemma {:induction false} RunProper(st: State, ls: seq<string>, kind: string -> Kind)
    requires Proper(st.tier3, kind) && Settled(ls)
    ensures Run(st, ls, kind).Some? ==> Proper(Run(st, ls, kind).value.tier3, kind)
    decreases |ls|
  {
    if ls != [] {
      StepProper(st, ls[0], kind);
      var next := Step(st, kind(ls[0]), ls[0]);
      if next.Some? {
        RunProper(next.value, ls[1..], kind);
      }
    }
  }

  lemma {:induction false} JoinTight(ls: seq<string>)
    requires Settled(ls)
    ensures Strip(Join(ls, NL)) == Join(ls, NL) && Tight(Join(ls, NL)) && (Join(ls, NL) == "" <==> ls == [])
  {
    if ls != [] {
      JoinEnds(ls);
    }
    StripTight(Join(ls, NL));
  }

  /** A parsed procedure is its lines: none blank, none that the printer reserves but two
      kinds it marks again. */
  lemma {:induction false} ProcedureOf(text: string) returns (ls: seq<string>)
    ensures Proper(ls, Classify) && Parse(text).tier3 == Join(ls, NL) && Lines(Parse(text).tier3) == ls
    ensures SplitLines(Parse(text).tier3) == ls
  {
    ls := [];
    var all := Lines(text);
    LinesSettled(text);
    if all != [] {
      RunProper(START, all[1..], Classify);
      var r := Run(START, all[1..], Classify);
      if r.Some? && all[0] == VERSION && (r.value.section.Tier2? || r.value.section.Discoveries?) {
        ls := r.value.tier3;
      }
    }
    JoinTight(ls);
    LinesJoin(ls);
    SplitJoin(ls);
  }

  // What a flush carries on

  lemma {:induction false} ProperParts(ls: seq<string>, kind: string -> Kind)
    requires Proper(ls, kind) && ls != []
    ensures Proper([ls[0]], kind) && Proper(ls[1..], kind)
  {}

  lemma {:induction false} ProperCons(l: string, rest: seq<string>, kind: string -> Kind)
    requires Proper([l], kind) && Proper(rest, kind)
    ensures Proper([l] + rest, kind)
  {
    assert [l][0] == l;
  }

  lemma {:induction false} WithoutIn(ls: seq<string>, drop: string -> bool, kind: string -> Kind)
    requires Proper(ls, kind)
    ensures Proper(Without(ls, drop), kind)
  {
    if ls != [] {
      ProperParts(ls, kind);
      WithoutIn(ls[1..], drop, kind);
      ProperCons(ls[0], Without(ls[1..], drop), kind);
    }
  }

  /** Which lines are left does not depend on the lines around them... */
  lemma {:induction false} WithoutConcat(a: seq<string>, b: seq<string>, drop: string -> bool)
    ensures Without(a + b, drop) == Without(a, drop) + Without(b, drop)
  {
    if a == [] {
      assert a + b == b;
    } else {
      assert (a + b)[1..] == a[1..] + b;
      WithoutConcat(a[1..], b, drop);
    }
  }

  /** ... a settled line goes exactly if it is to be dropped. */
  lemma {:induction false} WithoutOne(l: string, drop: string -> bool)
    requires Tight(l)
    ensures Without([l], drop) == if drop(l) then [] else [l]
  {
    StripTight(l);
    assert [l][1..] == [];
    assert [l] + [] == [l];
  }

  /** The lines of a summary's procedure that are no milestones. */
  ghost function Procedure(previous: string, f: Flush): seq<string> {
    Without(Lines(Parse(previous).tier3), f.isMilestone)
  }

  lemma {:induction false} ProcedureIs(previous: string, f: Flush) returns (ks: seq<string>)
    ensures ks == Procedure(previous, f) && Proper(ks, Classify)
    ensures Strip(Join(Without(SplitLines(Parse(previous).tier3), f.isMilestone), NL)) == Join(ks, NL)
  {
    var ls := ProcedureOf(previous);
    ks := Without(ls, f.isMilestone);
    WithoutIn(ls, f.isMilestone, Classify);
    JoinTight(ks);
  }

  // Ends of joined lines

  lemma {:induction false} JoinCons(l: string, rest: seq<string>)
    ensures Join([l] + rest, NL) == if rest == [] then l else l + NL + Join(rest, NL)
  {
    assert ([l] + rest)[1..] == rest;
  }

  lemma {:induction false} Shifted(l: string, t: string, i: nat)
    requires |l| < i < |l| + 1 + |t|
    ensures (l + NL + t)[i] == t[i - |l| - 1] && (l + NL + t)[i..] == t[i - |l| - 1..]
  {}

  lemma {:induction false} InFirst(l: string, t: string, i: nat)
    requires i < |l|
    ensures (l + NL + t)[i] == l[i] && (l + NL + t)[i..] == l[i..] + NL + t
  {}

  /** The end of joined lines, from a place inside a line on: the end of that line, and the
      lines behind it. */
  lemma {:induction false} EndOfJoin(ls: seq<string>, i: nat, kind: string -> Kind)
    returns (first: string, rest: seq<string>)
    requires Proper(ls, kind) && i < |Join(ls, NL)| && Join(ls, NL)[i] != '\n'
    ensures Join(ls, NL)[i..] == Join([first] + rest, NL) && Proper(rest, kind)
    ensures first != "" && first[0] == Join(ls, NL)[i] && !IsSpace(first[|first| - 1]) && OneLine(first)
  {
    var l, behind := ls[0], ls[1..];
    assert ls == [l] + behind;
    JoinCons(l, behind);
    ProperParts(ls, kind);
    if i < |l| {
      first, rest := l[i..], behind;
      JoinCons(first, rest);
      InFirst(l, Join(behind, NL), i);
    } else {
      var j := i - |l| - 1;
      Shifted(l, Join(behind, NL), i);
      first, rest := EndOfJoin(behind, j, kind);
    }
  }

  /** Such an end behind a mark is again joined lines... */
  lemma {:induction false} MarkedEnd(first: string, rest: seq<string>, mark: string, kind: string -> Kind)
    returns (ls: seq<string>)
    requires Proper(rest, kind) && MarksProse(mark, kind)
    requires first != "" && !IsSpace(first[|first| - 1]) && OneLine(first)
    ensures Proper(ls, kind) && ls != [] && mark + Join([first] + rest, NL) == Join(ls, NL)
  {
    ls := [mark + first] + rest;
    JoinCons(first, rest);
    JoinCons(mark + first, rest);
    OneLineConcat(mark, first);
  }

  lemma {:induction false} ShortIsProse(l: string)
    requires |l| <= 6
    ensures Classify(l) == Prose
  {
    assert |NOTICE| >= |NOTICE_HEAD| > 6;
  }

  lemma {:induction false} JoinLength(ls: seq<string>, k: nat)
    requires k < |ls|
    ensures |ls[k]| <= |Join(ls, NL)|
  {
    JoinCons(ls[0], ls[1..]);
    assert ls == [ls[0]] + ls[1..];
    if k > 0 {
      JoinLength(ls[1..], k - 1);
    }
  }

  lemma {:induction false} ShortLines(r: seq<string>)
    requires Settled(r) && |Join(r, NL)| <= 6
    ensures Proper(r, Classify)
  {
    forall k | 0 <= k < |r|
      ensures Classify(r[k]).Prose?
    {
      JoinLength(r, k);
      ShortIsProse(r[k]);
    }
  }

  lemma {:induction false} EndStripped(t: string, i: nat) returns (j: nat)
    requires i <= |t|
    ensures i <= j <= |t| && LStrip(t[i..]) == t[j..] && (j < |t| ==> !IsSpace(t[j]))
  {
    var k := LStripInside(t[i..]);
    j := i + k;
    assert t[i..][k..] == t[j..];
    assert j < |t| ==> t[j] == t[j..][0];
  }

  /** ... and so is a very short end. */
  lemma {:induction false} ShortEnd(ls: seq<string>, i: nat) returns (r: seq<string>)
    requires Proper(ls, Classify) && i <= |Join(ls, NL)| <= i + 6
    ensures Proper(r, Classify) && LStrip(Join(ls, NL)[i..]) == Join(r, NL)
  {
    var j := EndStripped(Join(ls, NL), i);
    r := [];
    if j < |Join(ls, NL)| {
      var first, rest := EndOfJoin(ls, j, Classify);
      r := [first] + rest;
      ShortLines(r);
    }
  }

  /** What a cut leaves of the procedure are again lines of this kind. */
  lemma {:induction false} CutLines(ks: seq<string>, n: nat) returns (r: seq<string>)
    requires Proper(ks, Classify)
    ensures Proper(r, Classify) && LStrip(TailClip(Join(ks, NL), n)) == Join(r, NL) && |Join(r, NL)| <= n
    ensures |Join(ks, NL)| <= n ==> r == ks
  {
    var t, i := TailClipSays(Join(ks, NL), n);
    JoinTight(ks);
    if |t| <= n {
      r := ks;
    } else if n <= 6 {
      r := ShortEnd(ks, |t| - n);
    } else {
      r := MarkedCut(ks, n, i);
    }
  }

  lemma {:induction false} MarkedCut(ks: seq<string>, n: nat, i: nat) returns (r: seq<string>)
    requires Proper(ks, Classify) && |Join(ks, NL)| > n > 6 && i < |Join(ks, NL)|
    requires BeginsWhole(Join(ks, NL), |Join(ks, NL)| - (n - 6), i)
    requires |CUT_MARK + Join(ks, NL)[i..]| <= n
    ensures Proper(r, Classify) && |Join(r, NL)| <= n
    ensures LStrip(CUT_MARK + Join(ks, NL)[i..]) == CUT_MARK + Join(ks, NL)[i..] == Join(r, NL)
  {
    var t := Join(ks, NL);
    if t[i - 1] == '\n' {
      NoEmptyLine(ks, i);
    }
    var first, rest := EndOfJoin(ks, i, Classify);
    CutMarkMarks();
    r := MarkedEnd(first, rest, CUT_MARK, Classify);
  }

  /** No newline follows another one. */
  lemma {:induction false} NoEmptyLine(ls: seq<string>, i: nat)
    requires Settled(ls) && 0 < i < |Join(ls, NL)| && Join(ls, NL)[i - 1] == '\n'
    ensures Join(ls, NL)[i] != '\n'
  {
    var l, behind := ls[0], ls[1..];
    JoinCons(l, behind);
    assert ls == [l] + behind;
    if i > |l| + 1 {
      var all := l + NL + Join(behind, NL);
      assert all[i] == Join(behind, NL)[i - |l| - 1] && all[i - 1] == Join(behind, NL)[i - |l| - 2];
      NoEmptyLine(behind, i - |l| - 1);
    } else if i == |l| + 1 && behind != [] {
      JoinEnds(behind);
      assert (l + NL + Join(behind, NL))[i] == Join(behind, NL)[0];
    }
  }

  // A flush

  /** A milestone as a flush writes it: one line of prose that leaves room in Tier 3. */
  predicate Milestone(m: string) {
    m != "" && Tight(m) && OneLine(m) && Classify(m) == Prose && |m| <= 1900
  }

  /** The carried procedure is some lines of this kind, and the milestone behind them. */
  lemma {:induction false} CarriedLines(previous: string, f: Flush) returns (r: seq<string>)
    requires Milestone(f.milestone)
    ensures Proper(r, Classify) && Carried(Parse(previous).tier3, f) == Join(r + [f.milestone], NL)
    ensures |Join(r, NL)| <= Room(f)
    ensures |Join(Procedure(previous, f), NL)| <= Room(f) ==> r == Procedure(previous, f)
    ensures Room(f) > 0 ==> Join(r, NL) == LStrip(TailClip(Join(Procedure(previous, f), NL), Room(f)))
  {
    var ks := ProcedureIs(previous, f);
    var procedure := Join(ks, NL);
    var kept := Fitted(procedure, Room(f));
    r := [];
    if Room(f) > 0 {
      r := CutLines(ks, Room(f));
    } else {
      JoinTight(ks);
    }
    CarriedWith(f, kept, r);
  }

  lemma {:induction false} JoinAppend(a: seq<string>, m: string)
    requires a != []
    ensures Join(a + [m], NL) == Join(a, NL) + NL + m
  {
    if |a| == 1 {
      assert a + [m] == [a[0]] + [m];
      JoinCons(a[0], [m]);
    } else {
      assert a + [m] == [a[0]] + (a[1..] + [m]) && a == [a[0]] + a[1..];
      JoinCons(a[0], a[1..] + [m]);
      JoinCons(a[0], a[1..]);
      JoinAppend(a[1..], m);
    }
  }

  lemma {:induction false} StripBehind(kept: string, m: string)
    requires m != "" && Tight(m)
    ensures Strip(kept + NL + m) == if LStrip(kept) == "" then m else LStrip(kept) + NL + m
  {
    var s := kept + NL + m;
    assert s[|s| - 1] == m[|m| - 1];
    assert RStrip(s) == s;
    LStripBehind(kept, m);
  }

  lemma {:induction false} LStripBehind(kept: string, m: string)
    requires m != "" && !IsSpace(m[0])
    ensures LStrip(kept + NL + m) == if LStrip(kept) == "" then m else LStrip(kept) + NL + m
  {
    var s := kept + NL + m;
    if kept == "" {
      assert s == NL + m && s[1..] == m;
    } else if IsSpace(kept[0]) {
      assert s[1..] == kept[1..] + NL + m;
      LStripBehind(kept[1..], m);
    }
  }

  lemma {:induction false} CarriedWith(f: Flush, kept: string, r: seq<string>)
    requires Milestone(f.milestone) && Settled(r) && LStrip(kept) == Join(r, NL)
    ensures WithMilestone(kept, f.milestone) == Join(r + [f.milestone], NL)
  {
    if r == [] {
      assert [] + [f.milestone] == [f.milestone];
    } else {
      JoinEnds(r);
      JoinAppend(r, f.milestone);
    }
    StripBehind(kept, f.milestone);
  }

  // What the printer makes of it

  lemma {:induction false} TwoLines(ls: seq<string>, j: nat)
    requires j < |ls| - 1
    ensures |Join(ls, NL)| >= |ls[j]| + 1 + |ls[|ls| - 1]|
  {
    JoinCons(ls[0], ls[1..]);
    assert ls == [ls[0]] + ls[1..];
    if j > 0 {
      TwoLines(ls[1..], j - 1);
    } else {
      JoinLength(ls[1..], |ls| - 2);
    }
  }

  lemma {:induction false} ReservedLength(l: string)
    requires Proper([l], Classify) && Classify(l) != Prose
    ensures 11 <= |l| && |Guard(l)| <= 25
  {
    assert [l][0] == l;
  }

  lemma {:induction false} BehindMark(mark: string, l: string)
    requires mark != "" && !IsSpace(mark[0]) && OneLine(mark) && l != "" && Tight(l) && OneLine(l)
    ensures mark + l != "" && Tight(mark + l) && OneLine(mark + l)
  {}

  lemma {:induction false} BodyMark()
    ensures |BODY_MARK| == 8 && !IsSpace(BODY_MARK[0]) && OneLine(BODY_MARK)
  {
    assert BODY_MARK[0] == '[';
  }

  lemma {:induction false} GuardedAs(l: string, g: string, mark: string, kind: string -> Kind)
    requires mark != "" && !IsSpace(mark[0]) && OneLine(mark) && l != "" && Tight(l) && OneLine(l)
    requires (g == mark + l || g == l) && AllProse(Seen(g), kind)
    ensures g != "" && Tight(g) && OneLine(g) && kind(g) == Prose
  {
    BehindMark(mark, l);
    StripTight(g);
    assert Seen(g) == [g];
    assert kind(Seen(g)[0]) == Prose;
  }

  /** Each line as it is printed. */
  lemma {:induction false} GuardedLine(l: string) returns (g: string)
    requires l != "" && Tight(l) && OneLine(l)
    ensures g == Guard(l) && g != "" && Tight(g) && OneLine(g) && Classify(g) == Prose
  {
    g := Guard(l);
    BodyMark();
    GuardIsProse(l);
    GuardCases(l);
    GuardedAs(l, g, BODY_MARK, Classify);
  }

  /** Where the lines are the same, and how long they are where they are not. */
  ghost predicate Lengths(r: seq<string>, h: seq<string>, kind: string -> Kind) {
    && |h| == |r|
    && forall k {:trigger kind(r[k])} :: 0 <= k < |r| ==>
         if kind(r[k]) == Prose then |h[k]| == |r[k]| else 11 <= |r[k]| && |h[k]| <= 25
  }

  lemma {:induction false} GuardedLengths(r: seq<string>)
    requires Proper(r, Classify)
    ensures Lengths(r, Guarded(r), Classify)
  {
    forall k | 0 <= k < |r|
      ensures if Classify(r[k]) == Prose then |Guard(r[k])| == |r[k]| else 11 <= |r[k]| && |Guard(r[k])| <= 25
    {
      if Classify(r[k]) == Prose {
        GuardProse(r[k]);
      } else {
        ReservedLength(r[k]);
      }
    }
  }

  /** The lines as they are printed, with the milestone at the end. */
  lemma {:induction false} GuardedBefore(r: seq<string>, m: string) returns (h: seq<string>)
    requires Settled(r) && Milestone(m)
    ensures h == Guarded(r) && Guarded(r + [m]) == h + [m] && Settled(h) && AllProse(h, Classify)
    ensures AllProse(r, Classify) ==> h == r
  {
    h := Guarded(r);
    forall k | 0 <= k < |h|
      ensures h[k] != "" && Tight(h[k]) && OneLine(h[k]) && Classify(h[k]) == Prose
    {
      var g := GuardedLine(r[k]);
    }
    GuardProse(m);
    if AllProse(r, Classify) {
      GuardedProse(r);
    }
  }

  lemma {:induction false} NotEmpty(g: seq<string>, m: string)
    requires Milestone(m)
    ensures g + [m] != [TIER3_EMPTY]
  {
    Tier3EmptyIsALine();
    assert (g + [m])[|g|] == m;
  }

  lemma {:induction false} NewestNotEmpty(t: string, n: nat)
    requires t != "" && Tight(t) && n > 6
    ensures Newest(t, n) != ""
  {
    if |t| > n {
      var i := CutAt(t, n);
      MarkedEndIs(t, i, n);
    }
  }

  lemma {:induction false} PrintedAs(c: string, t: string)
    requires t == Strip(Join(Guarded(SplitLines(c)), NL)) && t != "" && Tight(t)
    ensures Tier3Text(c) == Newest(t, TIER3_CHARS)
  {
    var printed := PrintedCases(c, t);
    NewestNotEmpty(t, TIER3_CHARS);
  }

  lemma {:induction false} Printed(r: seq<string>, m: string, h: seq<string>)
    requires Settled(r) && Milestone(m) && Settled(h) && Guarded(r + [m]) == h + [m]
    ensures Tier3Text(Join(r + [m], NL)) == Newest(Join(h + [m], NL), TIER3_CHARS)
  {
    SplitJoin(r + [m]);
    JoinTight(h + [m]);
    PrintedAs(Join(r + [m], NL), Join(h + [m], NL));
  }

  lemma {:induction false} CollectedIs(c: string, t: string, z: seq<string>, m: string)
    requires Tier3Text(c) == t && Lines(t) == z + [m] && Milestone(m)
    ensures Collected(c) == z + [m]
  {
    NotEmpty(z, m);
  }

  /** Printed lines that fit are collected as they are. */
  lemma {:induction false} FittingCollected(c: string, h: seq<string>, m: string)
    requires Settled(h) && Milestone(m) && |Join(h + [m], NL)| <= TIER3_CHARS
    requires Tier3Text(c) == Newest(Join(h + [m], NL), TIER3_CHARS)
    ensures Collected(c) == h + [m]
  {
    LinesJoin(h + [m]);
    CollectedIs(c, Join(h + [m], NL), h, m);
  }

  lemma {:induction false} Places(x: string, y: string, m: string)
    ensures var t, q := x + NL + y + NL + m, |x| + 1 + |y|;
      |t| == q + 1 + |m| && t[|x|] == '\n' && t[q..] == NL + m
  {}

  lemma {:induction false} EndFrom(t: string, i: nat, q: nat, e: string)
    requires i <= q <= |t| && t[q..] == e
    ensures t[i..] == t[i..q] + e
  {}

  lemma {:induction false} Associates(a: string, b: string, c: string, d: string)
    ensures a + (b + (c + d)) == (a + b) + c + d
  {}

  lemma {:induction false} BeginsBefore(t: string, k: nat, i: nat, j: nat)
    requires BeginsWhole(t, k, i) && k <= j < |t| && t[j] == '\n'
    ensures i <= j + 1
  {}

  lemma {:induction false} MarkedBefore(t: string, i: nat, q: nat, m: string) returns (a: string)
    requires i <= q <= |t| && t[q..] == NL + m
    ensures CUT_MARK + t[i..] == a + NL + m
  {
    EndFrom(t, i, q, NL + m);
    a := CUT_MARK + t[i..q];
    Associates(CUT_MARK, t[i..q], NL, m);
  }

  lemma {:induction false} EndStaysAt(t: string, p: nat, q: nat, m: string, n: nat) returns (a: string)
    requires |t| > n > 6 && Tight(t) && p < q <= |t| && t[p] == '\n' && t[q..] == NL + m && |t| - p <= n - 6
    ensures Newest(t, n) == a + NL + m
  {
    var i := CutAt(t, n);
    BeginsBefore(t, |t| - (n - 6), i, p);
    MarkedEndIs(t, i, n);
    a := MarkedBefore(t, i, q, m);
  }

  /** A short last line is left whole where the lines before it are cut. */
  lemma {:induction false} EndStays(x: string, y: string, m: string, n: nat, t: string) returns (a: string)
    requires t == x + NL + y + NL + m && Milestone(m) && |y| + |m| + 2 <= n - 6 && |t| > n > 6 && Tight(t)
    ensures Newest(t, n) == a + NL + m
  {
    Places(x, y, m);
    a := EndStaysAt(t, |x|, |x| + 1 + |y|, m, n);
  }

  lemma {:induction false} LinesBehindText(a: string, m: string)
    requires Milestone(m)
    ensures Lines(a + NL + m) == Lines(a) + [m]
  {
    assert Seen("") == [];
    ViewNewline(a, m, Seen);
    LinesOfLine(m);
  }

  lemma {:induction false} JoinTwo(g: seq<string>, y: string, m: string) returns (t: string)
    requires Settled(g) && g != [] && y != "" && Tight(y) && OneLine(y) && Milestone(m)
    ensures t == Join(g + [y] + [m], NL) == Join(g, NL) + NL + y + NL + m && Tight(t)
  {
    JoinAppend(g, y);
    JoinAppend(g + [y], m);
    JoinTight(g + [y] + [m]);
    t := Join(g + [y] + [m], NL);
  }

  lemma {:induction false} EndCollected(c: string, x: string, y: string, m: string, t: string) returns (z: seq<string>)
    requires t == x + NL + y + NL + m && Tight(t) && Milestone(m) && |y| + |m| <= 1992 && |t| > TIER3_CHARS
    requires Tier3Text(c) == Newest(t, TIER3_CHARS)
    ensures Collected(c) == z + [m]
  {
    var a := EndStays(x, y, m, TIER3_CHARS, t);
    LinesBehindText(a, m);
    z := Lines(a);
    CollectedIs(c, a + NL + m, z, m);
  }

  lemma {:induction false} LongCollected(c: string, g: seq<string>, y: string, m: string) returns (z: seq<string>)
    requires Settled(g) && g != [] && y != "" && Tight(y) && OneLine(y) && Milestone(m) && |y| + |m| <= 1992
    requires |Join(g + [y] + [m], NL)| > TIER3_CHARS
    requires Tier3Text(c) == Newest(Join(g + [y] + [m], NL), TIER3_CHARS)
    ensures Collected(c) == z + [m]
  {
    var t := JoinTwo(g, y, m);
    z := EndCollected(c, Join(g, NL), y, m, t);
  }

  lemma {:induction false} LastAway(h: seq<string>, m: string) returns (g: seq<string>, y: string)
    requires Settled(h) && |h| > 1
    ensures Settled(g) && g != [] && y != "" && Tight(y) && OneLine(y) && y == h[|h| - 1]
    ensures g + [y] + [m] == h + [m]
  {
    g, y := h[..|h| - 1], h[|h| - 1];
    assert h == g + [y];
  }

  /** With a line among them that gets a mark, the last line is short. */
  lemma {:induction false} LastIsShort(r: seq<string>, h: seq<string>, m: string, j: nat, kind: string -> Kind)
    requires Lengths(r, h, kind) && |m| <= 1900 && |Join(r, NL)| + 1 + |m| <= TIER3_CHARS
    requires j < |r| && kind(r[j]) != Prose
    ensures |h[|h| - 1]| + |m| <= 1992
  {
    var n := |r| - 1;
    if kind(r[n]) == Prose {
      TwoLines(r, j);
    }
  }

  /** Lines made longer by marks: the last one is short, and not the only one. */
  lemma {:induction false} MarkedAreShort(r: seq<string>, h: seq<string>, m: string, kind: string -> Kind)
    requires Lengths(r, h, kind) && |m| <= 1900 && |Join(r, NL)| + 1 + |m| <= TIER3_CHARS && r != []
    requires |Join(h + [m], NL)| > TIER3_CHARS && (AllProse(r, kind) ==> h == r)
    ensures |h| > 1 && |h[|h| - 1]| + |m| <= 1992 && !AllProse(r, kind)
  {
    JoinAppend(h, m);
    assert !AllProse(r, kind);
    var j: nat :| j < |r| && kind(r[j]) != Prose;
    LastIsShort(r, h, m, j, kind);
  }

  lemma {:induction false} LongerCollected(c: string, r: seq<string>, h: seq<string>, m: string)
    returns (z: seq<string>)
    requires Lengths(r, h, Classify) && Milestone(m) && |Join(r, NL)| + 1 + |m| <= TIER3_CHARS && r != []
    requires |Join(h + [m], NL)| > TIER3_CHARS && (AllProse(r, Classify) ==> h == r) && Settled(h)
    requires Tier3Text(c) == Newest(Join(h + [m], NL), TIER3_CHARS)
    ensures Collected(c) == z + [m] && !AllProse(r, Classify)
  {
    MarkedAreShort(r, h, m, Classify);
    var g, y := LastAway(h, m);
    z := LongCollected(c, g, y, m);
  }

  /** A milestone behind lines of the procedure is collected as the last line; if these are
      prose, all of them are. */
  lemma {:induction false} MilestoneCollected(r: seq<string>, m: string) returns (z: seq<string>)
    requires Proper(r, Classify) && Milestone(m) && (r == [] || |Join(r, NL)| + 1 + |m| <= TIER3_CHARS)
    ensures Collected(Join(r + [m], NL)) == z + [m]
    ensures AllProse(r, Classify) ==> z == r
  {
    var c := Join(r + [m], NL);
    var h := GuardedBefore(r, m);
    Printed(r, m, h);
    if |Join(h + [m], NL)| <= TIER3_CHARS {
      FittingCollected(c, h, m);
      z := h;
    } else {
      assert Guarded([]) + [m] == [m];
      GuardedLengths(r);
      z := LongerCollected(c, r, h, m);
    }
  }

  /** Whatever the summary, the milestone of a flush is the last line of its procedure.
      Before it stand the lines that were no milestones, as far as they fit; prose lines
      exactly as they were. */
  lemma {:induction false} MilestoneStays(previous: string, f: Flush) returns (z: seq<string>, r: seq<string>)
    requires Milestone(f.milestone)
    ensures Lines(Parse(Flushed(previous, f)).tier3) == z + [f.milestone]
    ensures AllProse(r, Classify) ==> z == r
    ensures |Join(Procedure(previous, f), NL)| <= Room(f) ==> r == Procedure(previous, f)
    ensures Room(f) == 0 ==> r == []
    ensures Room(f) > 0 ==> Join(r, NL) == LStrip(TailClip(Join(Procedure(previous, f), NL), Room(f)))
  {
    r := CarriedLines(previous, f);
    if Room(f) == 0 {
      EmptyJoin(r);
    }
    z := MilestoneCollected(r, f.milestone);
    FlushCollects(previous, f, z + [f.milestone]);
  }

  lemma {:induction false} EmptyJoin(r: seq<string>)
    requires Settled(r) && |Join(r, NL)| == 0
    ensures r == []
  {
    JoinTight(r);
  }

  /** The next flush that knows this milestone takes it away, and only what it knows. */
  lemma {:induction false} MilestoneGoes(previous: string, f: Flush, z: seq<string>, g: Flush)
    requires Milestone(f.milestone) && Lines(Parse(Flushed(previous, f)).tier3) == z + [f.milestone]
    ensures Procedure(Flushed(previous, f), g)
            == Without(z, g.isMilestone) + if g.isMilestone(f.milestone) then [] else [f.milestone]
  {
    WithoutConcat(z, [f.milestone], g.isMilestone);
    WithoutOne(f.milestone, g.isMilestone);
  }

  lemma {:induction false} FlushCollects(previous: string, f: Flush, ls: seq<string>)
    requires Collected(Carried(Parse(previous).tier3, f)) == ls
    ensures Lines(Parse(Flushed(previous, f)).tier3) == ls
  {
    var p := ParsedIsPlain(previous);
    PlainToPlainLines(p.discoveries, false);
    ParseRecovers(Carried(p.tier3, f), p.through, [], p.discoveries);
    LinesSettled(Tier3Text(Carried(p.tier3, f)));
    JoinTight(ls);
    LinesJoin(ls);
  }

  // Compaction

  /** The last n, in order. */
  lemma {:induction false} LastSays(ls: seq<string>, n: nat, k: nat)
    ensures |Last(ls, n)| == if |ls| <= n then |ls| else n
    ensures k < |Last(ls, n)| ==> Last(ls, n)[|Last(ls, n)| - 1 - k] == ls[|ls| - 1 - k]
  {}

  /** No line is blank. */
  predicate NoneBlank(ls: seq<string>) {
    forall k :: 0 <= k < |ls| ==> Strip(ls[k]) != ""
  }

  lemma {:induction false} ClippedAt(ls: seq<string>, n: nat, k: nat)
    requires NoneBlank(ls) && k < |ls|
    ensures |ClipLines(ls, n)| == |ls| && ClipLines(ls, n)[k] == Clip(ls[k], n)
  {
    if k > 0 {
      ClippedAt(ls[1..], n, k - 1);
    } else if |ls| > 1 {
      ClippedAt(ls[1..], n, 0);
    }
  }

  /** Of a list the first twenty or ten lines are printed, each clipped. */
  lemma {:induction false} PrintedSays(ls: seq<string>, k: nat)
    requires NoneBlank(ls) && k < |ls|
    ensures |Tier2Printed(ls)| == (if |ls| <= 20 then |ls| else 20)
    ensures |DiscoveriesPrinted(ls)| == (if |ls| <= 10 then |ls| else 10)
    ensures k < 20 ==> Tier2Printed(ls)[k] == Clip(ls[k], 280)
    ensures k < 10 ==> DiscoveriesPrinted(ls)[k] == Clip(ls[k], 140)
  {
    ClippedAt(ls, 280, k);
    ClippedAt(ls, 140, k);
  }

  lemma {:induction false} CompactedAs(summary: string, tier2: nat, chars: nat, discoveries: nat) returns (x: string)
    requires Tiered(Strip(summary))
    ensures var t := Parse(summary).tier3; x == if |t| <= chars then t else t[|t| - chars..]
    ensures Parse(Compacted(summary, tier2, chars, discoveries)).tier3 == Strip(Join(Collected(x), NL))
  {
    ParseIgnoresSpace(summary);
    var p := ParsedIsPlain(Strip(summary));
    LastIsPlain(p.tier2, tier2, Classify, true);
    LastIsPlain(p.discoveries, discoveries, Classify, false);
    PlainToPlainLines(Last(p.tier2, tier2), true);
    PlainToPlainLines(Last(p.discoveries, discoveries), false);
    x := if |p.tier3| <= chars then p.tier3 else p.tier3[|p.tier3| - chars..];
    ParseRecovers(x, p.through, Last(p.tier2, tier2), Last(p.discoveries, discoveries));
  }

  /** A compaction to no characters leaves nothing of the procedure... */
  lemma {:induction false} CompactionDrops(summary: string, tier2: nat, discoveries: nat)
    requires Tiered(Strip(summary))
    ensures Parse(Compacted(summary, tier2, 0, discoveries)).tier3 == ""
  {
    var x := CompactedAs(summary, tier2, 0, discoveries);
    assert x == "";
    NothingCollected();
  }

  lemma {:induction false} ProseCollected(ls: seq<string>)
    requires Settled(ls) && AllProse(ls, Classify) && |Join(ls, NL)| <= TIER3_CHARS
    ensures Strip(Join(Collected(Join(ls, NL)), NL)) == Join(ls, NL)
  {
    if ls == [] {
      NothingCollected();
    } else {
      PrintedAgain(ls, Join(ls, NL));
      Tier3EmptyIsALine();
      LinesJoin(ls);
      assert ls[0] != TIER3_EMPTY;
      JoinTight(ls);
    }
  }

  /** ... and one to as many as it has keeps a procedure of prose as it is. */
  lemma {:induction false} CompactionKeepsProcedure(summary: string, tier2: nat, chars: nat, discoveries: nat)
    requires Tiered(Strip(summary)) && AllProse(Lines(Parse(summary).tier3), Classify)
    requires |Parse(summary).tier3| <= chars && |Parse(summary).tier3| <= TIER3_CHARS
    ensures Parse(Compacted(summary, tier2, chars, discoveries)).tier3 == Parse(summary).tier3
  {
    var x := CompactedAs(summary, tier2, chars, discoveries);
    var ls := ProcedureOf(summary);
    ProseCollected(ls);
  }

  /** A resume starts without the procedure, from the last six steps and four discoveries. */
  lemma {:induction false} ResumeDropsProcedure(summary: string)
    requires Tiered(Strip(summary)) && StartsWith(summary, VERSION)
    ensures Parse(ResumeSummary(summary)).tier3 == "" && Parse(ResumeSummary(summary)).through == Parse(summary).through
    ensures Parse(ResumeSummary(summary)).tier2 == Tier2Printed(Last(Parse(summary).tier2, 6))
    ensures Parse(ResumeSummary(summary)).discoveries == DiscoveriesPrinted(Last(Parse(summary).discoveries, 4))
  {
    ResumeCompacts(summary);
    CompactionDrops(summary, 6, 4);
    CompactionKeepsTiered(summary, 6, 0, 4);
  }

  lemma {:induction false} ResumeCompacts(summary: string)
    requires Tiered(Strip(summary)) && StartsWith(summary, VERSION)
    ensures ResumeSummary(summary) == Compacted(summary, 6, 0, 4)
  {
    assert Strip(summary) != "";
  }

  lemma {:induction false} EmptyStarts() returns (f: string)
    ensures f == Format("", 0, [], []) && StartsWith(f, VERSION) && Strip(f) == f && Parse(f) == EMPTY
  {
    f := Format("", 0, [], []);
    FormatStarts("", 0, [], []);
    EmptyEnds(f);
    StripTight(f);
    ParseRecovers("", 0, [], []);
    NothingCollected();
  }

  lemma {:induction false} JoinLast(ls: seq<string>, sep: string)
    requires ls != [] && ls[|ls| - 1] != ""
    ensures Join(ls, sep) != "" && Join(ls, sep)[|Join(ls, sep)| - 1] == ls[|ls| - 1][|ls[|ls| - 1]| - 1]
  {
    if |ls| > 1 {
      JoinLast(ls[1..], sep);
    }
  }

  lemma {:induction false} EmptyEnds(f: string)
    requires f == Format("", 0, [], [])
    ensures Tight(f)
  {
    EmptyLists();
    FormatStarts("", 0, [], []);
    assert f[0] == VERSION[0];
    var ls := Sections("", 0, [], []);
    assert Tier2Printed([]) == [] && DiscoveriesPrinted([]) == [];
    assert |ls| == 3 && ls[2] == Join([TIER2_HEADER, TIER2_EMPTY], NL);
    JoinCons(TIER2_HEADER, [TIER2_EMPTY]);
    assert ls[2][|ls[2]| - 1] == TIER2_EMPTY[|TIER2_EMPTY| - 1] == ')';
    JoinLast(ls, NL + NL);
  }

  /** The summary of nothing stays itself. */
  lemma {:induction false} EmptyStays(tier2: nat, chars: nat, discoveries: nat)
    ensures var f := Format("", 0, [], []); Compacted(f, tier2, chars, discoveries) == f
  {
    var f := EmptyStarts();
  }

  /** Of a stored text that is no such summary a resume takes the beginning. */
  lemma {:induction false} ResumeClips(summary: string)
    requires !StartsWith(summary, VERSION)
    ensures ResumeSummary(summary) == if Strip(summary) == "" then "" else Clip(summary, 2000)
  {}
}
