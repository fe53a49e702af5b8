/** The states one attempt writes, against the declared graph. */
module Traces {
  import opened Prelude
  import opened Programs
  import opened States
  import opened Stages
  import opened Executor
  import opened OutcomeTheorems

  ghost predicate Linked(t: seq<State>) {
    forall i :: 0 <= i < |t| - 1 ==> Follows(t[i], t[i + 1])
  }

  /** The written states are open ones, never Analyzing or Shrinking. */
  predicate Usual(s: State) { s in {Compiling, Judging, Authoring, Validating, Stressing, Explaining} }

  lemma LinkedAppend(t: seq<State>, s: State)
    requires Linked(t) && (t == [] || Follows(t[|t| - 1], s))
    ensures Linked(t + [s])
  {}

  lemma {:induction false} RevisionsAreLinked(k: nat)
    ensures Linked([Compiling, Judging] + Revisions(k)) && |Revisions(k)| == 2 * k
    ensures forall s :: s in Revisions(k) ==> s in {Authoring, Validating}
    ensures k >= 1 ==> Revisions(k)[2 * k - 1] == Validating
  {
    if k > 0 {
      RevisionsAreLinked(k - 1);
      var t := [Compiling, Judging] + Revisions(k - 1);
      LinkedAppend(t, Authoring);
      LinkedAppend(t + [Authoring], Validating);
      assert [Compiling, Judging] + Revisions(k) == t + [Authoring] + [Validating];
    }
  }

  lemma SearchIsLinked(search: seq<State>)
    requires IsSearchTrace(search)
    ensures Linked([Compiling, Judging] + search) && |search| <= 7
    ensures forall s :: s in search ==> s in {Authoring, Validating, Stressing}
  {
    var k, cut, stressed :| SearchShape(k, cut, stressed) && search == SearchTrace(k, cut, stressed);
    RevisionsAreLinked(k);
    var t := [Compiling, Judging] + Revisions(k);
    if cut {
      LinkedAppend(t, Authoring);
      assert [Compiling, Judging] + search == t + [Authoring];
    } else if stressed {
      LinkedAppend(t, Stressing);
      assert [Compiling, Judging] + search == t + [Stressing];
    } else {
      assert [Compiling, Judging] + search == t;
    }
  }

  lemma AttemptIsLinked(t: seq<State>)
    requires IsAttemptTrace(t)
    ensures Linked(t) && |t| <= 10
    ensures forall s :: s in t ==> Usual(s)
    ensures t != [] ==> t[0] == Compiling
  {
    if t != [] && t != [Compiling] {
      var search, explained :| IsSearchTrace(search) && t == [Compiling, Judging] + search + When(explained, Explaining);
      SearchIsLinked(search);
      var opening := [Compiling, Judging] + search;
      if explained { LinkedAppend(opening, Explaining); } else { assert t == opening; }
    }
  }

  /**
   On a first attempt every pair of consecutive states, from Submitted to the terminal one, lies in the
   transitive closure of the declared graph; an attempt writes at most ten states before it ends.
   */
  lemma AttemptStaysInClosure(t: seq<State>, end: State, i: nat)
    requires IsAttemptTrace(t) && Terminal(end) && i <= |t|
    ensures var all := [Submitted] + t + [end]; Reaches(all[i], all[i + 1])
    ensures |t| <= 10
  {
    AttemptIsLinked(t);
    var all := [Submitted] + t + [end];
    assert forall j :: 0 <= j < |t| ==> t[j] in t;
    assert Follows(all[i], all[i + 1]) by {
      if 0 < i < |t| { assert Follows(t[i - 1], t[i]); }
    }
    ReachesIffFollows(all[i], all[i + 1]);
  }

  // ------------------------------------------------------------ declared edges

  /** Every step is a declared edge. */
  ghost predicate Declared(t: seq<State>) {
    forall i :: 0 <= i < |t| - 1 ==> CanTransition(t[i], t[i + 1])
  }

  lemma RestStarts(rest: seq<State>)
    requires IsRest(rest) && rest != []
    ensures rest[0] == Authoring || rest[0] == Explaining
  {
    var search, explained :| IsSearchTrace(search) && rest == search + When(explained, Explaining);
    var k, cut, stressed :| SearchShape(k, cut, stressed) && search == SearchTrace(k, cut, stressed);
    RevisionsStart(k);
  }

  lemma {:induction false} RevisionsStart(k: nat)
    ensures if k == 0 then Revisions(k) == [] else Revisions(k) != [] && Revisions(k)[0] == Authoring
  {
    if k > 1 { RevisionsStart(k - 1); }
  }

  /** An attempt that was judged takes declared edges only exactly when it writes nothing before its terminal state. */
  lemma DeclaredIffUnsearched(rest: seq<State>, end: State)
    requires IsRest(rest) && Terminal(end)
    ensures Declared([Submitted, Compiling, Judging] + rest + [end]) <==> rest == []
  {
    var all := [Submitted, Compiling, Judging] + rest + [end];
    if rest == [] {
      assert all == [Submitted, Compiling, Judging, end];
    } else {
      RestStarts(rest);
      assert !CanTransition(all[2], all[3]);
    }
  }

  /** What an attempt writes after its verdict: the trace of the plan unless a failing test is short, and Explaining. */
  ghost function RestOfAttempt(ctx: Context, report: Report): seq<State> {
    if !Searched(ctx) then []
    else
      (if Readable(Judged(ctx.oracle, ctx.settings.perRunTimeout, ctx.Tests()).1) then []
       else PlanOf(ctx.oracle, ctx.samples).Trace())
      + When(report.counterexample.Some?, Explaining)
  }

  lemma RestIsDetermined(ctx: Context, end: Ending, rest: seq<State>)
    requires Outcome(ctx, end, rest)
    ensures rest == RestOfAttempt(ctx, end.report)
  {
    if Searched(ctx) {
      var free := Judged(ctx.oracle, ctx.settings.perRunTimeout, ctx.Tests()).1;
      var r, search, tally, last :|
        && Sought(ctx.oracle, ctx.settings, ctx.samples, free, r, search, tally)
        && Concludes(ctx.oracle, r, tally, end, last) && rest == search + last;
    }
  }

  lemma {:induction false} PlanGoesOn(o: Oracle, samples: seq<Test>, checker: string, sb: Sandbox, spec: Spec, prompt: Prompt, revision: nat)
    ensures PlanFrom(o, samples, checker, sb, spec, prompt, revision).revisions >= revision
    decreases MAX_AUTHOR_REVISIONS - revision
  {
    if revision < MAX_AUTHOR_REVISIONS && !o.outOfTime(revision) && o.authored(revision, prompt).Answer? {
      var a := o.authored(revision, prompt).value;
      var (box, fit, gate) := Gated(samples, checker, sb, spec, a);
      PlanGoesOn(o, samples, checker, box, fit, Repair(gate, a), revision + 1);
    }
  }

  /** The search writes nothing exactly when the model fails before the first revision or time is up by then. */
  lemma PlanIsSilent(o: Oracle, samples: seq<Test>)
    ensures PlanOf(o, samples).Trace() == [] <==> Briefed(o).Raise? || o.outOfTime(0)
  {
    if Briefed(o).Ok? && !o.outOfTime(0) {
      var (spec, checker) := Briefed(o).value;
      if o.authored(0, FromStatement(spec)).Answer? {
        var a := o.authored(0, FromStatement(spec)).value;
        var (box, fit, gate) := Gated(samples, checker, Empty(o), spec, a);
        PlanGoesOn(o, samples, checker, box, fit, Repair(gate, a), 1);
        assert PlanOf(o, samples).revisions >= 1;
        RevisionsStart(PlanOf(o, samples).revisions);
      }
    }
  }

  /**
   When nothing raises, an attempt takes declared edges only if and only if the tests end it, or an
   external verdict sent it to search and it got nowhere: the model failed before the first revision or
   time was up by then.
   */
  lemma DeclaredIff(ctx: Context, end: Ending, rest: seq<State>)
    requires Outcome(ctx, end, rest) && IsRest(rest) && Terminal(end.state)
    ensures Declared([Submitted, Compiling, Judging] + rest + [end.state]) <==>
              !Searched(ctx) ||
              (Overrides(Judged(ctx.oracle, ctx.settings.perRunTimeout, ctx.Tests()).0, ctx.external) &&
               (Briefed(ctx.oracle).Raise? || ctx.oracle.outOfTime(0)))
  {
    DeclaredIffUnsearched(rest, end.state);
    RestIsDetermined(ctx, end, rest);
    PlanIsSilent(ctx.oracle, ctx.samples);
    JudgedIsConsistent(ctx);
    if Judged(ctx.oracle, ctx.settings.perRunTimeout, ctx.Tests()).0 == WA {
      LocalWrongAnswerIsShown(ctx, end, rest);
    } else if Searched(ctx) && PlanOf(ctx.oracle, ctx.samples).Trace() == [] { SilentFindsNothing(ctx, end, rest); }
  }

  /** After an override, a search that writes nothing finds nothing. */
  lemma SilentFindsNothing(ctx: Context, end: Ending, rest: seq<State>)
    requires Outcome(ctx, end, rest) && PlanOf(ctx.oracle, ctx.samples).Trace() == []
    requires Overrides(Judged(ctx.oracle, ctx.settings.perRunTimeout, ctx.Tests()).0, ctx.external)
    ensures end.report.counterexample == None
  {
    JudgedIsConsistent(ctx);
    assert !PlanOf(ctx.oracle, ctx.samples).Accepting?;
  }
}
