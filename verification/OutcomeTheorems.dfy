/** What the outcome of an attempt is worth. */
module OutcomeTheorems {
  import opened Prelude
  import opened Programs
  import opened States
  import opened Driver
  import opened DriverTheorems
  import opened Stages
  import opened Executor

  /** A judged test whose output differs, or a legal generated input on which the program fails. */
  ghost predicate Sound(ctx: Context, m: Counterexample) {
    || FromTests(ctx.oracle, ctx.settings.perRunTimeout, ctx.Tests(), m)
    || FromStress(ctx.oracle, ctx.settings.perRunTimeout, ctx.samples, m)
  }

  lemma SoughtIsSound(ctx: Context, free: Option<Free>, r: Result<Option<Mismatch>>, trace: seq<State>, tally: Tally)
    requires Judged(ctx.oracle, ctx.settings.perRunTimeout, ctx.Tests()).1 == free
    requires Sought(ctx.oracle, ctx.settings, ctx.samples, free, r, trace, tally) && r.Ok? && r.value.Some?
    ensures Sound(ctx, Shown(r.value.value))
  {
    if r.value == Fallback(free) {
      VerdictMeans(ctx.oracle, ctx.settings.perRunTimeout, ctx.Tests(), 0);
      assert Shown(r.value.value) == Counterexample(free.value.input, free.value.expected, free.value.actual);
    } else {
      var q :| AsPlanned(ctx.oracle, ctx.settings, PlanOf(ctx.oracle, ctx.samples), q, trace, tally) && r == WithFallback(q, free);
      PlannedIsSound(ctx.oracle, ctx.settings, ctx.samples, q, trace, tally);
    }
  }

  /**
   Every counterexample in a report is in a Done report and is sound: a judged test whose output
   differs, or an input generated at a recorded seed and size, accepted by the validator and answered by
   the brute force of the revision that the gates accepted last, on which the program times out, crashes
   or is rejected.
   */
  lemma CounterexamplesAreSound(ctx: Context, end: Ending, rest: seq<State>)
    requires Outcome(ctx, end, rest) && end.report.counterexample.Some?
    ensures end.state == Done && end.report.verdict == Some(WA) && Sound(ctx, end.report.counterexample.value)
  {
    var (verdict, free) := Judged(ctx.oracle, ctx.settings.perRunTimeout, ctx.Tests());
    var r, search, tally, last :|
      && Sought(ctx.oracle, ctx.settings, ctx.samples, free, r, search, tally)
      && Concludes(ctx.oracle, r, tally, end, last) && rest == search + last;
    SoughtIsSound(ctx, free, r, search, tally);
  }

  /**
   A wrong answer found by the local tests always ends Done with a counterexample, whatever the model
   and the clock do, as long as the sandbox and the database do not raise.
   */
  lemma LocalWrongAnswerIsShown(ctx: Context, end: Ending, rest: seq<State>)
    requires Outcome(ctx, end, rest)
    requires Judged(ctx.oracle, ctx.settings.perRunTimeout, ctx.Tests()).0 == WA
    ensures end.state == Done && end.report.counterexample.Some?
  {
    JudgedIsConsistent(ctx);
  }

  lemma JudgedIsConsistent(ctx: Context)
    ensures var (verdict, free) := Judged(ctx.oracle, ctx.settings.perRunTimeout, ctx.Tests());
            (verdict == WA <==> free.Some?)
  {
    VerdictMeans(ctx.oracle, ctx.settings.perRunTimeout, ctx.Tests(), 0);
  }

  /**
   An attempt degrades exactly when an external verdict overrode a local acceptance and the model
   failed before the search could end by itself.
   */
  lemma DegradedExactlyWhen(ctx: Context, end: Ending, rest: seq<State>)
    requires Outcome(ctx, end, rest)
    ensures end.state == Degraded <==>
              Overrides(Judged(ctx.oracle, ctx.settings.perRunTimeout, ctx.Tests()).0, ctx.external) &&
              PlanOf(ctx.oracle, ctx.samples).Failing?
  {
    JudgedIsConsistent(ctx);
  }

  /** The verdict and the counterexample of the judge, whatever names them. */
  lemma TheVerdict(ctx: Context, verdict: Verdict, free: Option<Free>)
    requires VerdictIs(ctx.oracle, ctx.settings.perRunTimeout, ctx.officialTests, ctx.samples, verdict, free)
    ensures Judged(ctx.oracle, ctx.settings.perRunTimeout, ctx.Tests()) == (verdict, free)
  {
    var (v, f) := Judged(ctx.oracle, ctx.settings.perRunTimeout, ctx.Tests());
    JudgedMeans(ctx.oracle, ctx.settings.perRunTimeout, ctx.officialTests, ctx.samples);
    VerdictIsUnique(ctx.oracle, ctx.settings.perRunTimeout, ctx.officialTests, ctx.samples, v, f, verdict, free);
  }

  /**
   The report carries the verdict of the judge and nothing else, unless that is a wrong answer, or an
   acceptance that an online judge overruled: the report then says wrong answer.
   */
  lemma VerdictIsReported(ctx: Context, end: Ending, rest: seq<State>, verdict: Verdict, free: Option<Free>)
    requires Outcome(ctx, end, rest)
    requires VerdictIs(ctx.oracle, ctx.settings.perRunTimeout, ctx.officialTests, ctx.samples, verdict, free)
    ensures if verdict == WA || (verdict == AC && ctx.external in {"WA", "TLE", "RE"}) then
              end.report.verdict == Some(WA) && end.state in {Done, Degraded}
            else
              end == Ending(Done, Report(Some(verdict), None, None, 0, 0)) && rest == []
  {
    TheVerdict(ctx, verdict, free);
  }

  /** A failing test of at most 400 characters is the counterexample, and no search is made. */
  lemma ShortTestIsShown(ctx: Context, end: Ending, rest: seq<State>, free: Free)
    requires Outcome(ctx, end, rest) && |free.input| <= 400
    requires VerdictIs(ctx.oracle, ctx.settings.perRunTimeout, ctx.officialTests, ctx.samples, WA, Some(free))
    ensures end.state == Done && rest == [Explaining] && end.report.roundsRun == 0
    ensures end.report.counterexample == Some(Counterexample(free.input, free.expected, free.actual))
  {
    TheVerdict(ctx, WA, Some(free));
  }

  /** A longer one is only the counterexample to fall back on, for a search that accepts nothing. */
  lemma LongTestStandsIn(ctx: Context, end: Ending, rest: seq<State>, free: Free)
    requires Outcome(ctx, end, rest) && |free.input| > 400
    requires VerdictIs(ctx.oracle, ctx.settings.perRunTimeout, ctx.officialTests, ctx.samples, WA, Some(free))
    ensures rest == PlanOf(ctx.oracle, ctx.samples).Trace() + [Explaining]
    ensures !PlanOf(ctx.oracle, ctx.samples).Accepting? ==>
              end.report.counterexample == Some(Counterexample(free.input, free.expected, free.actual))
  {
    TheVerdict(ctx, WA, Some(free));
  }

  /** A counterexample carries the model's label, or none when the model gives none. */
  lemma LabelIsReported(ctx: Context, end: Ending, rest: seq<State>)
    requires Outcome(ctx, end, rest) && end.report.counterexample.Some?
    ensures match ctx.oracle.explained
            case Answer(e) => end.report.bugClass == Some(e.bugClass)
            case NoAnswer(_) => end.report.bugClass == None
  {}

  // ------------------------------------------------------------ the stress run

  /** The judged test that fails, if there is one. */
  function FailingTest(ctx: Context): Option<Free> { Judged(ctx.oracle, ctx.settings.perRunTimeout, ctx.Tests()).1 }

  /** The tests do not end the attempt: the answer is wrong, or an external verdict says so. */
  predicate Searched(ctx: Context) {
    var verdict := Judged(ctx.oracle, ctx.settings.perRunTimeout, ctx.Tests()).0;
    verdict == WA || Overrides(verdict, ctx.external)
  }

  /** The attempt searches, no failing test is short enough to read, and a revision is accepted. */
  ghost predicate UnderStress(ctx: Context) {
    Searched(ctx) && !Readable(FailingTest(ctx)) && PlanOf(ctx.oracle, ctx.samples).Accepting?
  }

  ghost function Box(ctx: Context): Sandbox
    requires PlanOf(ctx.oracle, ctx.samples).Accepting?
  {
    PlanOf(ctx.oracle, ctx.samples).sb
  }

  /** The driver runs with the settings of the worker, from size 1 to the calibrated one, under its own default of 25 seeds. */
  ghost function Setup(ctx: Context): Config
    requires PlanOf(ctx.oracle, ctx.samples).Accepting?
  {
    Config(ctx.settings.stressRounds, 1, PlanOf(ctx.oracle, ctx.samples).spec.sizeMax, 1,
           ctx.settings.stressBudget, ctx.settings.perRunTimeout, 25)
  }

  /** What is shown of a failing test. */
  function Standby(free: Option<Free>): Option<Counterexample> {
    if free.Some? then Some(Counterexample(free.value.input, free.value.expected, free.value.actual)) else None
  }

  /** The report shows what this final event carries; a failing test stands in for a mismatch. */
  predicate Shows(report: Report, last: Event, free: Option<Free>) {
    match last
    case DoneFound(rounds, steps, minimal) =>
      report.counterexample == Some(Shown(minimal)) && report.roundsRun == rounds && report.shrinkSteps == steps
    case DoneEmpty(rounds, _) => report.counterexample == Standby(free) && report.roundsRun == rounds
    case _ => false
  }

  /** The search of such a submission ends with what the driver found, or with the failing test. */
  lemma SoughtByStress(ctx: Context, end: Ending, rest: seq<State>) returns (found: Option<Mismatch>, tally: Tally)
    requires Outcome(ctx, end, rest) && UnderStress(ctx)
    ensures Stressed(ctx.oracle, ctx.settings, Box(ctx), PlanOf(ctx.oracle, ctx.samples).spec, found, tally)
    ensures end.state == Done && end.report.roundsRun == tally.rounds
    ensures found.Some? ==> end.report.counterexample == Some(Shown(found.value)) && end.report.shrinkSteps == tally.steps
    ensures found.None? ==> end.report.counterexample == Standby(FailingTest(ctx))
  {
    var free := FailingTest(ctx);
    var r, search, counts, last :|
      && Sought(ctx.oracle, ctx.settings, ctx.samples, free, r, search, counts)
      && Concludes(ctx.oracle, r, counts, end, last) && rest == search + last;
    var q :| AsPlanned(ctx.oracle, ctx.settings, PlanOf(ctx.oracle, ctx.samples), q, search, counts) && r == WithFallback(q, free);
    found, tally := q.value, counts;
  }

  /** If all events arrive, the report is that of one truthful run of the driver in the accepted sandbox. */
  lemma ReportIsTheDrivers(ctx: Context, end: Ending, rest: seq<State>) returns (last: Event)
    requires Outcome(ctx, end, rest) && UnderStress(ctx) && ctx.oracle.delivery.Complete?
    ensures end.state == Done && Shows(end.report, last, FailingTest(ctx))
    ensures Truthful(Box(ctx), Setup(ctx), ctx.oracle.rawSize, ctx.oracle.clock, last)
  {
    var found, tally := SoughtByStress(ctx, end, rest);
    last := StressedReports(ctx.oracle, ctx.settings, Box(ctx), PlanOf(ctx.oracle, ctx.samples).spec, found, tally);
  }

  /**
   Of the rounds counted the last is the first that disagreed, and the counterexample is its mismatch or
   what shrinking makes of it; or all were quiet, and it is the failing test if there is one.
   */
  ghost predicate LastRoundDecides(sb: Sandbox, cfg: Config, raw: RawSize, report: Report, free: Option<Free>) {
    var rounds := report.roundsRun;
    0 <= rounds <= cfg.rounds &&
    if rounds >= 1 && Round(sb, cfg, raw, rounds - 1).Some? then
      && QuietUntil(sb, cfg, raw, rounds - 1)
      && exists minimal :: report.counterexample == Some(Shown(minimal)) &&
           Shrinks(sb, cfg, Round(sb, cfg, raw, rounds - 1).value, minimal)
    else
      QuietUntil(sb, cfg, raw, rounds) && report.counterexample == Standby(free)
  }

  lemma EventDecides(sb: Sandbox, cfg: Config, o: Oracle, last: Event, report: Report, free: Option<Free>)
    requires Truthful(sb, cfg, o.rawSize, o.clock, last) && Shows(report, last, free)
    ensures LastRoundDecides(sb, cfg, o.rawSize, report, free)
  {
    if last.DoneEmpty? && last.rounds >= 1 { assert Round(sb, cfg, o.rawSize, last.rounds - 1).None?; }
  }

  /** Once a revision is accepted and all events arrive, the report is decided by the last round of the driver. */
  lemma StressDecides(ctx: Context, end: Ending, rest: seq<State>)
    requires Outcome(ctx, end, rest) && UnderStress(ctx) && ctx.oracle.delivery.Complete?
    ensures end.state == Done
    ensures LastRoundDecides(Box(ctx), Setup(ctx), ctx.oracle.rawSize, end.report, FailingTest(ctx))
  {
    var last := ReportIsTheDrivers(ctx, end, rest);
    EventDecides(Box(ctx), Setup(ctx), ctx.oracle, last, end.report, FailingTest(ctx));
  }

  /** The last round met this mismatch, and the clock leaves shrinking all its time. */
  ghost predicate Calm(sb: Sandbox, cfg: Config, o: Oracle, report: Report, first: Mismatch) {
    && 1 <= report.roundsRun && Round(sb, cfg, o.rawSize, report.roundsRun - 1) == Some(first)
    && Unhurried(cfg, o.clock, report.roundsRun, first.size)
  }

  /** A genuine mismatch, no larger than the first, below which every candidate size is silent under all its seeds. */
  ghost predicate Least(sb: Sandbox, cfg: Config, first: Mismatch, minimal: Mismatch) {
    && Genuine(sb, minimal, cfg.timeout) && minimal.size <= first.size
    && forall s :: s in Candidates(first.size) && s < minimal.size ==>
         Silent(sb, first.seed * 7919, cfg.seedsPerSize, s, cfg.timeout)
  }

  lemma GoalIsLeast(sb: Sandbox, cfg: Config, seed: int, size: int, first: Mismatch)
    requires Probe(sb, seed, size, cfg.timeout) == Some(first)
    ensures Least(sb, cfg, first, ShrinkGoal(sb, first, cfg.timeout, cfg.seedsPerSize).GetOr(first))
  {
    ProbeIsGenuine(sb, seed, size, cfg.timeout);
    var goal, sizes := ShrinkGoal(sb, first, cfg.timeout, cfg.seedsPerSize), Candidates(first.size);
    if goal.Some? {
      ShrinkIsMinimal(sb, first, cfg.timeout, cfg.seedsPerSize, goal.value);
    } else {
      FirstHitIsLeast(sb, first.seed * 7919, cfg.seedsPerSize, sizes, cfg.timeout);
    }
  }

  /** A driver that is not hurried reports a mismatch that is least in this sense. */
  lemma DriverIsLeast(sb: Sandbox, cfg: Config, o: Oracle, last: Event, report: Report, free: Option<Free>, first: Mismatch)
    requires Truthful(sb, cfg, o.rawSize, o.clock, last) && Shows(report, last, free) && Calm(sb, cfg, o, report, first)
    ensures last.DoneFound? && Least(sb, cfg, first, last.minimal)
  {
    MismatchEndsTheRun(sb, cfg, o, last, report, free, first);
    var i := last.rounds - 1;
    GoalIsLeast(sb, cfg, cfg.seedBase + i, PickSize(i, cfg.sizeMin, cfg.sizeMax, cfg.rounds, o.rawSize), first);
  }

  /** A last round that disagreed leaves no quiet end. */
  lemma MismatchEndsTheRun(sb: Sandbox, cfg: Config, o: Oracle, last: Event, report: Report, free: Option<Free>, first: Mismatch)
    requires Truthful(sb, cfg, o.rawSize, o.clock, last) && Shows(report, last, free) && Calm(sb, cfg, o, report, first)
    ensures last.DoneFound?
  {}

  /** End to end: the counterexample is minimal among the candidates of the mismatch that was met. */
  lemma ReportIsMinimal(ctx: Context, end: Ending, rest: seq<State>, first: Mismatch)
    requires Outcome(ctx, end, rest) && UnderStress(ctx) && ctx.oracle.delivery.Complete?
    requires Calm(Box(ctx), Setup(ctx), ctx.oracle, end.report, first)
    ensures exists minimal :: end.report.counterexample == Some(Shown(minimal)) && Least(Box(ctx), Setup(ctx), first, minimal)
  {
    var last := ReportIsTheDrivers(ctx, end, rest);
    DriverIsLeast(Box(ctx), Setup(ctx), ctx.oracle, last, end.report, FailingTest(ctx), first);
  }

  /** Exactly the threshold up to 31, and within half as much again of it beyond. */
  predicate Near(minimal: Mismatch, m: int) {
    m <= minimal.size && if m <= 31 then minimal.size == m else 2 * minimal.size <= 3 * (m - 1)
  }

  lemma DriverIsNear(sb: Sandbox, cfg: Config, o: Oracle, last: Event, report: Report, free: Option<Free>, first: Mismatch, m: int)
    requires Truthful(sb, cfg, o.rawSize, o.clock, last) && Shows(report, last, free) && Calm(sb, cfg, o, report, first)
    requires m >= 1 && cfg.seedsPerSize >= 1 && cfg.sizeMin >= 1 && FailsFrom(sb, cfg.timeout, m, Top(cfg))
    ensures last.DoneFound? && Near(last.minimal, m)
  {
    MismatchEndsTheRun(sb, cfg, o, last, report, free, first);
    DriverApproximates(sb, cfg, o.rawSize, o.clock, last, m);
  }

  /** And where failure has a threshold among the sizes that can be picked, the counterexample is close to it. */
  lemma ReportApproximates(ctx: Context, end: Ending, rest: seq<State>, first: Mismatch, m: int)
    requires Outcome(ctx, end, rest) && UnderStress(ctx) && ctx.oracle.delivery.Complete?
    requires Calm(Box(ctx), Setup(ctx), ctx.oracle, end.report, first)
    requires m >= 1 && FailsFrom(Box(ctx), ctx.settings.perRunTimeout, m, Max(1, PlanOf(ctx.oracle, ctx.samples).spec.sizeMax))
    ensures exists minimal :: end.report.counterexample == Some(Shown(minimal)) && Near(minimal, m)
  {
    var last := ReportIsTheDrivers(ctx, end, rest);
    DriverIsNear(Box(ctx), Setup(ctx), ctx.oracle, last, end.report, FailingTest(ctx), first, m);
  }

  // ------------------------------------------------------------------ the sweep

  /** The counterexample is the driver's by round i, or time was up before that round. */
  ghost predicate CaughtInTime(sb: Sandbox, cfg: Config, o: Oracle, report: Report, i: nat) {
    || (1 <= report.roundsRun <= i + 1 && report.counterexample.Some? && Round(sb, cfg, o.rawSize, report.roundsRun - 1).Some?)
    || (0 <= report.roundsRun <= i && o.clock(report.roundsRun + 1) > o.clock(0) + cfg.budget)
  }

  lemma SweepIsReported(sb: Sandbox, cfg: Config, o: Oracle, last: Event, report: Report, free: Option<Free>, size: nat)
    requires Truthful(sb, cfg, o.rawSize, o.clock, last) && Shows(report, last, free)
    requires cfg.rounds >= 1 && cfg.sizeMin == 1 && cfg.seedBase == 1 && 1 <= size <= cfg.sizeMax
    requires size <= (if cfg.rounds < 2 then 1 else cfg.rounds / 2)
    requires Probe(sb, size, size, cfg.timeout).Some?
    ensures CaughtInTime(sb, cfg, o, report, size - 1)
  {
    SweepIsComplete(sb, cfg, o.rawSize, o.clock, last, size - 1);
  }

  /**
   End to end: in the first half of the rounds, round number `size` runs this size under this seed; a bug
   it meets is reported by then, unless the stress budget ran out first.
   */
  lemma SweepIsDecisive(ctx: Context, end: Ending, rest: seq<State>, size: nat)
    requires Outcome(ctx, end, rest) && UnderStress(ctx) && ctx.oracle.delivery.Complete?
    requires 1 <= size <= PlanOf(ctx.oracle, ctx.samples).spec.sizeMax
    requires 1 <= ctx.settings.stressRounds && size <= (if ctx.settings.stressRounds < 2 then 1 else ctx.settings.stressRounds / 2)
    requires Probe(Box(ctx), size, size, ctx.settings.perRunTimeout).Some?
    ensures CaughtInTime(Box(ctx), Setup(ctx), ctx.oracle, end.report, size - 1)
  {
    var last := ReportIsTheDrivers(ctx, end, rest);
    SweepIsReported(Box(ctx), Setup(ctx), ctx.oracle, last, end.report, FailingTest(ctx), size);
  }

  // ----------------------------------------------------------------- an over-long line

  /**
   A failing test in hand does not help when the driver's first line is too long to read: whatever the
   model does, an attempt that accepts a revision has no outcome and ends as Failed.
   */
  lemma ChokedLosesTheTest(ctx: Context, end: Ending, rest: seq<State>)
    requires UnderStress(ctx) && ctx.oracle.delivery == Cut(0, Chokes)
    ensures !Outcome(ctx, end, rest)
  {
    if Outcome(ctx, end, rest) {
      var found, tally := SoughtByStress(ctx, end, rest);
      ChokedIsNoEnd(ctx.oracle, ctx.settings, Box(ctx), PlanOf(ctx.oracle, ctx.samples).spec, found, tally);
    }
  }
}
