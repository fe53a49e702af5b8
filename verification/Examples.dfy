/** Attempts that show what the theorems leave open does happen. */
module Examples {
  import opened Prelude
  import opened Programs
  import opened States
  import opened Driver
  import opened Stages
  import opened Executor
  import opened OutcomeTheorems
  import opened Traces

  // ------------------------------------------------------------ a long attempt

  /** Every program prints 1, except the user's, which prints 2; the model answers at once. */
  function Slip(d: Delivery): Oracle {
    Oracle((text, args, stdin, timeout) => Exited(if text == "user" then "2" else "1", "", 0), "user", Exited("", "", 0),
           None, Answer(Spec(1, true)), NoAnswer(ModelUnavailable),
           (revision, prompt) => Answer(Authored("brute", "generator", "validator")), NoAnswer(ModelUnavailable),
           revision => false, n => false, t => 0.0, hash => 1, d)
  }

  lemma TokensOfDigit(text: string)
    requires |text| == 1 && !IsSpace(text[0])
    ensures Tokens(text) == [text]
  {
    WordIsOneToken(text, "");
    assert "" + text == text;
  }

  lemma SlipProbes(sb: Sandbox, size: int)
    requires sb.machine == Slip(Complete).machine
    requires "brute.py" in sb.files && sb.files["brute.py"] == "brute"
    requires "generator.py" in sb.files && sb.files["generator.py"] == "generator"
    requires "validator.py" in sb.files && sb.files["validator.py"] == "validator"
    ensures SizeProbe(sb, size).Passed? && Runs(sb)
  {
    TokensOfDigit("1");
    assert SizeProbe(sb, 1).Passed?;
  }

  lemma SlipIsAccepted(d: Delivery) returns (sb: Sandbox)
    ensures PlanOf(Slip(d), []) == Accepting(sb, Spec(1, true), FromStatement(Spec(1, true)), 1)
    ensures sb.user == "user" && sb.machine == Slip(Complete).machine && "checker.py" !in sb.files
    ensures "brute.py" in sb.files && "generator.py" in sb.files && "validator.py" in sb.files
    ensures sb.files["brute.py"] == "brute" && sb.files["generator.py"] == "generator" && sb.files["validator.py"] == "validator"
  {
    var o := Slip(d);
    sb := Install(Empty(o), Authored("brute", "generator", "validator"), "");
    SlipProbes(sb, 1);
    assert Calibrated(sb, 1, MAX_CALIBRATION_STEPS) == (Passed, 1);
    assert PlanFrom(o, [], "", Empty(o), Spec(1, true), FromStatement(Spec(1, true)), 0) == Accepting(sb, Spec(1, true), FromStatement(Spec(1, true)), 1);
  }

  lemma SlipIsCaught(sb: Sandbox, seed: int, size: int)
    requires sb.machine == Slip(Complete).machine && sb.user == "user" && "checker.py" !in sb.files
    requires "brute.py" in sb.files && sb.files["brute.py"] == "brute"
    requires "generator.py" in sb.files && sb.files["generator.py"] == "generator"
    requires "validator.py" in sb.files && sb.files["validator.py"] == "validator"
    ensures Probe(sb, seed, size, 1).Some?
  {
    TokensOfDigit("1");
    TokensOfDigit("2");
  }

  ghost predicate SlipSubmitted(ctx: Context) {
    && ctx.oracle == Slip(Complete) && ctx.settings == Settings(1, 1, 1.0)
    && ctx.samples == [] && ctx.officialTests == [] && ctx.external == "WA"
  }

  lemma SlipIsStressed(ctx: Context)
    requires SlipSubmitted(ctx)
    ensures UnderStress(ctx) && ctx.oracle.delivery.Complete?
    ensures PlanOf(ctx.oracle, ctx.samples).Trace() == [Authoring, Validating, Stressing]
    ensures Round(Box(ctx), Setup(ctx), ctx.oracle.rawSize, 0).Some? && Setup(ctx).rounds == 1
    ensures ctx.oracle.clock(1) <= ctx.oracle.clock(0) + Setup(ctx).budget
  {
    var sb := SlipIsAccepted(Complete);
    assert Judged(ctx.oracle, 1, ctx.Tests()) == (AC, None);
    var cfg := Setup(ctx);
    SlipIsCaught(sb, cfg.seedBase, PickSize(0, cfg.sizeMin, cfg.sizeMax, cfg.rounds, ctx.oracle.rawSize));
    assert Revisions(0) == [] && Revisions(1) == [Authoring, Validating];
  }

  /** A driver whose first round disagrees reports it. */
  lemma FirstRoundFinds(sb: Sandbox, cfg: Config, raw: RawSize, clock: nat -> real, last: Event)
    requires Truthful(sb, cfg, raw, clock, last) && cfg.rounds >= 1
    requires Round(sb, cfg, raw, 0).Some? && clock(1) <= clock(0) + cfg.budget
    ensures last.DoneFound?
  {}

  lemma SlipIsReported(ctx: Context, end: Ending, rest: seq<State>)
    requires SlipSubmitted(ctx) && Outcome(ctx, end, rest)
    ensures end.state == Done && rest == [Authoring, Validating, Stressing, Explaining]
  {
    SlipIsStressed(ctx);
    var last := ReportIsTheDrivers(ctx, end, rest);
    FirstRoundFinds(Box(ctx), Setup(ctx), ctx.oracle.rawSize, ctx.oracle.clock, last);
    RestIsDetermined(ctx, end, rest);
  }

  lemma AfterJudging(trace: seq<State>, rest: seq<State>)
    requires [Compiling, Judging] <= trace && trace[2..] == rest == [Authoring, Validating, Stressing, Explaining]
    ensures trace == [Compiling, Judging, Authoring, Validating, Stressing, Explaining]
  {
    assert trace == [Compiling, Judging] + rest;
  }

  lemma SlipRunsThrough(d: Delivery)
    ensures (forall n :: !Slip(d).raises(n)) && Slip(d).delivery == d && NonDecreasing(Slip(d).clock)
    ensures !CanTransition(Judging, Authoring) && !CanTransition(Stressing, Explaining)
  {}

  /** An attempt that jumps over declared states: from Judging to Authoring, and from Stressing to Explaining. */
  method AttemptSkipsDeclaredStates() returns (ctx: Context, end: Ending, ghost trace: seq<State>)
    ensures trace == [Compiling, Judging, Authoring, Validating, Stressing, Explaining] && end.state == Done
    ensures fresh(ctx) && ctx.written == trace + [end.state] && Outcome(ctx, end, trace[2..])
    ensures !CanTransition(Judging, Authoring) && !CanTransition(Stressing, Explaining)
  {
    SlipRunsThrough(Complete);
    ctx := new Context(Slip(Complete), Settings(1, 1, 1.0), [], [], "WA");
    assert SlipSubmitted(ctx);
    end, trace := RunSubmission(ctx);
    SlipIsReported(ctx, end, trace[2..]);
    AfterJudging(trace, trace[2..]);
  }

  // ---------------------------------------------------------- a line too long

  /** A test whose input is too long to read. */
  function LongTest(): Test { Test(seq(401, i => '1'), "1") }

  ghost predicate LongSlipSubmitted(ctx: Context) {
    && ctx.oracle == Slip(Cut(0, Chokes)) && ctx.settings == Settings(1, 1, 1.0)
    && ctx.samples == [] && ctx.officialTests == [LongTest()]
  }

  lemma LongSlipIsStressed(ctx: Context)
    requires LongSlipSubmitted(ctx)
    ensures UnderStress(ctx) && FailingTest(ctx).Some?
  {
    var sb := SlipIsAccepted(Cut(0, Chokes));
    TokensOfDigit("1");
    TokensOfDigit("2");
    assert ctx.Tests() == [LongTest()];
    assert Judged(ctx.oracle, 1, ctx.Tests()) == (WA, Some(Free(LongTest().input, "1", "2")));
  }

  /** An attempt that ends as Failed with a failing test in hand, although no operation but reading the driver raises. */
  method AttemptLosesItsTest() returns (ctx: Context, end: Ending, ghost trace: seq<State>)
    ensures fresh(ctx) && FailingTest(ctx).Some? && forall n :: !ctx.oracle.raises(n)
    ensures end.state == Failed && end.report.counterexample == None && ctx.choked
  {
    SlipRunsThrough(Cut(0, Chokes));
    ctx := new Context(Slip(Cut(0, Chokes)), Settings(1, 1, 1.0), [], [LongTest()], "");
    assert LongSlipSubmitted(ctx);
    LongSlipIsStressed(ctx);
    end, trace := RunSubmission(ctx);
    if end.state != Failed { ChokedLosesTheTest(ctx, end, trace[2..]); }
  }

  // ---------------------------------------------------------- a slow brute force

  /** The brute force takes too long on every input. */
  function Sluggish(): Oracle {
    Slip(Complete).(machine := (text, args, stdin, timeout) =>
      if text == "brute" && args == NoArgs then TimedOut("") else Exited("1", "", 0))
  }

  /** The bare sentinel goes back to the author, as what is to be repaired. */
  method SentinelReachesTheAuthor() returns (ctx: Context, gate: Result<Gate>)
    ensures fresh(ctx) && gate == Ok(TooSlow) && ctx.author.Some?
    ensures PromptFor(ctx.spec, ctx.author, gate.value) == Repair(TooSlow, ctx.author.value)
  {
    ctx := new Context(Sluggish(), Settings(1, 1, 1.0), [], [], "WA");
    var asked := ctx.Author(Passed);
    gate := ctx.Validate();
    SluggishIsTooSlow(ctx.sb);
  }

  lemma SluggishIsTooSlow(sb: Sandbox)
    requires sb.machine == Sluggish().machine
    requires "brute.py" in sb.files && sb.files["brute.py"] == "brute"
    requires "generator.py" in sb.files && sb.files["generator.py"] == "generator"
    requires "validator.py" in sb.files && sb.files["validator.py"] == "validator"
    ensures AllCompile(sb) && SizeProbe(sb, 1).TooSlow?
  {
    TokensOfDigit("1");
  }
}
