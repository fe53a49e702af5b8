/**
 The pipeline stages of one attempt: judging, authoring, the gates with size calibration, and the
 stress run. Everything outside is an oracle: what programs print, what the model answers, which
 operations of the sandbox or the database raise, and how much of the driver's output arrives.
 */
module Stages {
  import opened Prelude
  import opened Programs
  import opened States
  import opened Driver
  import opened DriverTheorems

  datatype ModelFailure = ModelUnavailable | BudgetExhausted | MalformedResponse

  datatype Exn = Model(why: ModelFailure) | Fault

  /** A value, or an exception on its way up. */
  datatype Result<+T> = Ok(value: T) | Raise(exn: Exn) {
    predicate IsFailure() { Raise? }

    function PropagateFailure<U>(): Result<U>
      requires IsFailure()
    {
      Raise(exn)
    }

    function Extract(): T
      requires !IsFailure()
    {
      value
    }
  }

  datatype Reply<+T> = Answer(value: T) | NoAnswer(why: ModelFailure) {
    function AsResult(): Result<T> { if Answer? then Ok(value) else Raise(Model(why)) }
  }

  datatype Test = Test(input: string, output: string)

  datatype Verdict = AC | WA | TLE | RE | CE

  datatype Spec = Spec(sizeMax: int, outputUnique: bool)

  datatype Authored = Authored(brute: string, generator: string, validator: string)

  datatype Explained = Explained(bugClass: string, explanation: string, fix: string)

  /** A judged test whose output differs. */
  datatype Free = Free(input: string, expected: string, actual: string)

  datatype Settings = Settings(perRunTimeout: int, stressRounds: nat, stressBudget: real)

  /** How the stream of events breaks off: the driver ends, goes silent, or prints a line too long to read, which raises. */
  datatype Break = Ends | Stalls | Chokes

  /** Whether the driver's event stream reaches the worker, or is cut off after some events. */
  datatype Delivery = Complete | Cut(events: nat, how: Break) {
    predicate Chokes() { Cut? && how.Chokes? }
  }

  function Delivered(d: Delivery, events: seq<Event>): seq<Event> {
    match d
    case Complete => events
    case Cut(n, how) => events[..Min(n, |events|)] + if how.Stalls? then [Stalled] else []
  }

  /** What the author is asked: to write the programs for these constraints, or to repair the ones that a gate rejected. */
  datatype Prompt = FromStatement(spec: Spec) | Repair(failure: Gate, programs: Authored)

  /** `failure` is what the gates said of the revision before; they have said nothing yet, or Passed, at the start. */
  function PromptFor(spec: Spec, author: Option<Authored>, failure: Gate): Prompt {
    if !failure.Passed? && author.Some? then Repair(failure, author.value) else FromStatement(spec)
  }

  /** The rounds and the shrink steps counted so far. */
  datatype Tally = Tally(rounds: int, steps: int)

  datatype Oracle = Oracle(
    machine: Machine, user: string, compiled: ExecResult,
    cachedSpec: Option<Spec>, analyzed: Reply<Spec>, checked: Reply<string>,
    authored: (nat, Prompt) -> Reply<Authored>, explained: Reply<Explained>,
    outOfTime: nat -> bool, raises: nat -> bool,
    clock: nat -> real, rawSize: RawSize, delivery: Delivery)

  const MAX_SIZE_KNOB := 100000
  const MAX_CALIBRATION_STEPS := 10

  /** The driver's default, which the worker does not override. */
  const SEEDS_PER_SIZE := 25

  // ------------------------------------------------------------------- gates

  /** The answer of a gate; TooSlow asks for a smaller size, the rest is a reason to repair. */
  datatype Gate = Passed | TooSlow | Rejected(why: string)

  /** One generated case of this size is legal, and the brute force can do it. */
  function SizeProbe(sb: Sandbox, size: int): Gate {
    var gen := sb.Run("generator.py", SeedSize(12345, size), "", 15);
    if gen.Code() != 0 || Tokens(gen.stdout) == [] then Rejected("generator failed")
    else if sb.Run("validator.py", NoArgs, gen.stdout, 15).Code() != 0 then Rejected("validator rejects")
    else
      var brute := sb.Run("brute.py", NoArgs, gen.stdout, 12);
      if brute.TimedOut? then TooSlow
      else if brute.Code() != 0 then Rejected("brute force crashed")
      else Passed
  }

  /** Start at `size` and halve while the brute force is too slow, at most `steps` probes in all. */
  function Calibrated(sb: Sandbox, size: int, steps: nat): (Gate, int) {
    if steps == 0 then (Rejected("no workable size"), size)
    else
      var probe := SizeProbe(sb, size);
      if !probe.TooSlow? then (probe, size)
      else if size <= 1 then (Rejected("too slow at size 1"), size)
      else Calibrated(sb, Max(1, size / 2), steps - 1)
  }

  predicate Compiles(sb: Sandbox, name: string) { sb.Run(name, SyntaxOnly, "", 15).Code() == 0 }

  /** The brute force reproduces the sample, by the checker if one was written. */
  predicate Reproduces(sb: Sandbox, checker: string, sample: Test) {
    var res := sb.Run("brute.py", NoArgs, sample.input, 20);
    && res.Exited? && res.code == 0
    && if checker != "" then
         sb.Run("checker.py", Contents(sample.input, res.stdout, sample.output), "", 15).Code() == 0
       else Tokens(res.stdout) == Tokens(sample.output)
  }

  /** The programs compile and handle the smallest case. */
  predicate Runs(sb: Sandbox) { AllCompile(sb) && SizeProbe(sb, 1).Passed? }

  predicate AllCompile(sb: Sandbox) {
    Compiles(sb, "brute.py") && Compiles(sb, "generator.py") && Compiles(sb, "validator.py")
  }

  /** The size knob after the gates: calibrated if they got that far. */
  function SizeAfter(sb: Sandbox, size: int): int {
    if Runs(sb) then Calibrated(sb, size, MAX_CALIBRATION_STEPS).1 else size
  }

  /** The gates, in the order they are tried, with calibration starting at `size`. */
  ghost predicate GatesHold(sb: Sandbox, checker: string, samples: seq<Test>, size: int) {
    && Runs(sb) && Calibrated(sb, size, MAX_CALIBRATION_STEPS).0.Passed?
    && forall i :: 0 <= i < |samples| ==> Reproduces(sb, checker, samples[i])
  }

  /** What the gates answer: the first complaint, in the order they are tried. */
  ghost function GateOf(sb: Sandbox, checker: string, samples: seq<Test>, size: int): (gate: Gate)
    ensures gate.Passed? <==> GatesHold(sb, checker, samples, size)
  {
    if !AllCompile(sb) then Rejected("syntax")
    else if !SizeProbe(sb, 1).Passed? then SizeProbe(sb, 1)
    else if !Calibrated(sb, size, MAX_CALIBRATION_STEPS).0.Passed? then Calibrated(sb, size, MAX_CALIBRATION_STEPS).0
    else if forall i :: 0 <= i < |samples| ==> Reproduces(sb, checker, samples[i]) then Passed
    else Rejected("sample")
  }

  // -------------------------------------------------- what the programs do

  ghost predicate ExitsWell(machine: Machine, text: string, args: Args, stdin: string, timeout: int) {
    exists out, err :: machine(text, args, stdin, timeout) == Exited(out, err, 0)
  }

  /** The generator's case of this size, under the seed that is always tried, is legal. */
  ghost predicate LegalCase(machine: Machine, a: Authored, size: int, input: string) {
    && (exists err :: machine(a.generator, SeedSize(12345, size), "", 15) == Exited(input, err, 0))
    && !Blank(input) && ExitsWell(machine, a.validator, NoArgs, input, 15)
  }

  /** The case of this size is legal, and the brute force ends well on it within twelve seconds. */
  ghost predicate Handles(machine: Machine, a: Authored, size: int) {
    exists input :: LegalCase(machine, a, size, input) && ExitsWell(machine, a.brute, NoArgs, input, 12)
  }

  /** The case of this size is legal, and the brute force does not end on it within twelve seconds. */
  ghost predicate Overwhelms(machine: Machine, a: Authored, size: int) {
    exists input :: LegalCase(machine, a, size, input) && machine(a.brute, NoArgs, input, 12).TimedOut?
  }

  ghost predicate SyntaxIsRight(machine: Machine, a: Authored) {
    && ExitsWell(machine, a.brute, SyntaxOnly, "", 15)
    && ExitsWell(machine, a.generator, SyntaxOnly, "", 15)
    && ExitsWell(machine, a.validator, SyntaxOnly, "", 15)
  }

  /** The brute force ends well on the sample, and prints its tokens, or what the checker accepts if there is one. */
  ghost predicate Agrees(machine: Machine, a: Authored, checker: string, sample: Test) {
    exists printed, err ::
      && machine(a.brute, NoArgs, sample.input, 20) == Exited(printed, err, 0)
      && if checker == "" then Tokens(printed) == Tokens(sample.output)
         else ExitsWell(machine, checker, Contents(sample.input, printed, sample.output), "", 15)
  }

  /** Everything the gates establish about the files in the sandbox. */
  ghost predicate Accepted(sb: Sandbox, a: Authored, checker: string, samples: seq<Test>, size: int) {
    && Installed(sb, a, checker) && SyntaxIsRight(sb.machine, a)
    && Handles(sb.machine, a, 1) && Handles(sb.machine, a, size)
    && forall i :: 0 <= i < |samples| ==> Agrees(sb.machine, a, checker, samples[i])
  }

  lemma ExitMeans(sb: Sandbox, name: string, args: Args, stdin: string, timeout: int)
    requires name in sb.files
    ensures sb.Run(name, args, stdin, timeout).Code() == 0 <==> ExitsWell(sb.machine, sb.files[name], args, stdin, timeout)
  {
    var res := sb.machine(sb.files[name], args, stdin, timeout);
    if res.Exited? { assert res == Exited(res.stdout, res.stderr, res.code); }
  }

  lemma ProbeMeans(sb: Sandbox, a: Authored, checker: string, size: int)
    requires Installed(sb, a, checker)
    ensures SizeProbe(sb, size).Passed? <==> Handles(sb.machine, a, size)
    ensures SizeProbe(sb, size).TooSlow? <==> Overwhelms(sb.machine, a, size)
  {
    var gen := sb.machine(a.generator, SeedSize(12345, size), "", 15);
    NoTokensIffBlank(gen.stdout, "");
    ExitMeans(sb, "validator.py", NoArgs, gen.stdout, 15);
    ExitMeans(sb, "brute.py", NoArgs, gen.stdout, 12);
    if gen.Exited? && gen.code == 0 && !Blank(gen.stdout) && ExitsWell(sb.machine, a.validator, NoArgs, gen.stdout, 15) {
      assert gen == Exited(gen.stdout, gen.stderr, 0);
      assert LegalCase(sb.machine, a, size, gen.stdout);
    }
  }

  lemma SyntaxMeans(sb: Sandbox, a: Authored, checker: string)
    requires Installed(sb, a, checker)
    ensures AllCompile(sb) <==> SyntaxIsRight(sb.machine, a)
  {
    ExitMeans(sb, "brute.py", SyntaxOnly, "", 15);
    ExitMeans(sb, "generator.py", SyntaxOnly, "", 15);
    ExitMeans(sb, "validator.py", SyntaxOnly, "", 15);
  }

  lemma SampleMeans(sb: Sandbox, a: Authored, checker: string, sample: Test)
    requires Installed(sb, a, checker)
    ensures Reproduces(sb, checker, sample) <==> Agrees(sb.machine, a, checker, sample)
  {
    var res := sb.machine(a.brute, NoArgs, sample.input, 20);
    if checker != "" { ExitMeans(sb, "checker.py", Contents(sample.input, res.stdout, sample.output), "", 15); }
    if res.Exited? { assert res == Exited(res.stdout, res.stderr, res.code); }
  }

  lemma SamplesMean(sb: Sandbox, a: Authored, checker: string, samples: seq<Test>)
    requires Installed(sb, a, checker)
    ensures forall i :: 0 <= i < |samples| ==> (Reproduces(sb, checker, samples[i]) <==> Agrees(sb.machine, a, checker, samples[i]))
  {
    forall i | 0 <= i < |samples| ensures Reproduces(sb, checker, samples[i]) <==> Agrees(sb.machine, a, checker, samples[i]) {
      SampleMeans(sb, a, checker, samples[i]);
    }
  }

  /** The size after k halvings, never below 1. */
  function Halving(size: int, k: nat): int
    decreases k
  {
    if k == 0 then size else Halving(Max(1, size / 2), k - 1)
  }

  /** The first k sizes are too slow, and above 1. */
  ghost predicate SlowUntil(sb: Sandbox, size: int, k: nat) {
    forall j: nat :: j < k ==> Halving(size, j) > 1 && SizeProbe(sb, Halving(size, j)).TooSlow?
  }

  /**
   Calibration halves past the sizes that are too slow, and only past those; it answers what the first
   other size answers, or rejects when it comes to 1 or has no probe left.
   */
  lemma {:induction false} CalibratedMeans(sb: Sandbox, size: int, steps: nat) returns (k: nat)
    ensures k <= steps && SlowUntil(sb, size, k) && Calibrated(sb, size, steps).1 == Halving(size, k)
    ensures var gate := Calibrated(sb, size, steps).0;
            if k < steps && !SizeProbe(sb, Halving(size, k)).TooSlow? then gate == SizeProbe(sb, Halving(size, k))
            else gate == Rejected(if k == steps then "no workable size" else "too slow at size 1") && (k == steps || Halving(size, k) <= 1)
    decreases steps
  {
    k := 0;
    if steps > 0 && SizeProbe(sb, size).TooSlow? && size > 1 {
      var next := CalibratedMeans(sb, Max(1, size / 2), steps - 1);
      k := next + 1;
      forall j: nat | j < k ensures Halving(size, j) > 1 && SizeProbe(sb, Halving(size, j)).TooSlow? {
        if j > 0 { assert Halving(size, j) == Halving(Max(1, size / 2), j - 1); }
      }
    }
  }

  lemma {:induction false} SlowIsUnique(sb: Sandbox, size: int, j: nat, k: nat)
    requires SlowUntil(sb, size, j) && SlowUntil(sb, size, k)
    requires !SizeProbe(sb, Halving(size, j)).TooSlow? && (!SizeProbe(sb, Halving(size, k)).TooSlow? || Halving(size, k) <= 1)
    ensures j == k
  {}

  /** The k-th halving is the first size that does not overwhelm the brute force, and it handles that. */
  ghost predicate Settles(machine: Machine, a: Authored, size: int, k: nat) {
    && Handles(machine, a, Halving(size, k))
    && forall j: nat :: j < k ==> Halving(size, j) > 1 && Overwhelms(machine, a, Halving(size, j))
  }

  /**
   A revision passes the gates if and only if its programs are well-formed and handle size 1, the brute
   force agrees with every sample, and one of the first ten sizes tried settles; the size knob is then that.
   */
  lemma GatesMean(sb: Sandbox, a: Authored, checker: string, samples: seq<Test>, size: int)
    requires Installed(sb, a, checker)
    ensures GatesHold(sb, checker, samples, size) <==>
              && SyntaxIsRight(sb.machine, a) && Handles(sb.machine, a, 1)
              && (exists k: nat :: k < 10 && Settles(sb.machine, a, size, k))
              && forall i :: 0 <= i < |samples| ==> Agrees(sb.machine, a, checker, samples[i])
    ensures forall k: nat :: GatesHold(sb, checker, samples, size) && k < 10 && Settles(sb.machine, a, size, k) ==>
              SizeAfter(sb, size) == Halving(size, k)
  {
    SyntaxMeans(sb, a, checker);
    ProbeMeans(sb, a, checker, 1);
    SamplesMean(sb, a, checker, samples);
    SettlesMeans(sb, a, checker, size);
  }

  /** What a revision is turned away for: the first of the gates, in their order, that it does not pass. */
  lemma ComplaintMeans(sb: Sandbox, a: Authored, checker: string, samples: seq<Test>, size: int)
    requires Installed(sb, a, checker)
    ensures var gate := GateOf(sb, checker, samples, size);
            if !SyntaxIsRight(sb.machine, a) then gate == Rejected("syntax")
            else if Overwhelms(sb.machine, a, 1) then gate == TooSlow
            else if !Handles(sb.machine, a, 1) || (forall k: nat :: k < 10 ==> !Settles(sb.machine, a, size, k)) then
              gate.Rejected? && gate.why !in {"syntax", "sample"}
            else if exists i :: 0 <= i < |samples| && !Agrees(sb.machine, a, checker, samples[i]) then gate == Rejected("sample")
            else gate == Passed
  {
    SyntaxMeans(sb, a, checker);
    ProbeMeans(sb, a, checker, 1);
    SettlesMeans(sb, a, checker, size);
    var k := CalibratedMeans(sb, size, 10);
    SamplesMean(sb, a, checker, samples);
  }

  lemma SettlesMeans(sb: Sandbox, a: Authored, checker: string, size: int)
    requires Installed(sb, a, checker)
    ensures Calibrated(sb, size, 10).0.Passed? <==> exists k: nat :: k < 10 && Settles(sb.machine, a, size, k)
    ensures forall k: nat :: k < 10 && Settles(sb.machine, a, size, k) ==> Calibrated(sb, size, 10).1 == Halving(size, k)
  {
    forall s ensures SizeProbe(sb, s).Passed? <==> Handles(sb.machine, a, s)
             ensures SizeProbe(sb, s).TooSlow? <==> Overwhelms(sb.machine, a, s)
    {
      ProbeMeans(sb, a, checker, s);
    }
    var k := CalibratedMeans(sb, size, 10);
    if Calibrated(sb, size, 10).0.Passed? { assert Settles(sb.machine, a, size, k); }
    forall n: nat | n < 10 && Settles(sb.machine, a, size, n)
      ensures Calibrated(sb, size, 10).0.Passed? && Calibrated(sb, size, 10).1 == Halving(size, n)
    {
      assert SlowUntil(sb, size, n) && !SizeProbe(sb, Halving(size, n)).TooSlow?;
      assert k != 10;
      SlowIsUnique(sb, size, n, k);
    }
  }

  /** The files are those of this revision. */
  predicate Installed(sb: Sandbox, a: Authored, checker: string) {
    && "brute.py" in sb.files && sb.files["brute.py"] == a.brute
    && "generator.py" in sb.files && sb.files["generator.py"] == a.generator
    && "validator.py" in sb.files && sb.files["validator.py"] == a.validator
    && (checker != "" ==> "checker.py" in sb.files && sb.files["checker.py"] == checker)
    && (checker == "" ==> "checker.py" !in sb.files)
  }

  function Install(sb: Sandbox, a: Authored, checker: string): Sandbox {
    var three := sb.Put("brute.py", a.brute).Put("generator.py", a.generator).Put("validator.py", a.validator);
    if checker != "" then three.Put("checker.py", checker) else three
  }

  /** The constraints to work with: those of an earlier attempt, or the model's with its size estimate clamped. */
  function Constraints(o: Oracle): Result<Spec> {
    if o.cachedSpec.Some? then Ok(o.cachedSpec.value)
    else
      var spec :- o.analyzed.AsResult();
      Ok(spec.(sizeMax := Max(1, Min(spec.sizeMax, MAX_SIZE_KNOB))))
  }

  /** Cached constraints are used as they are; fresh ones get a size between 1 and 100,000, kept if it is there already. */
  lemma ConstraintsMean(o: Oracle)
    ensures o.cachedSpec.Some? ==> Constraints(o) == Ok(o.cachedSpec.value)
    ensures o.cachedSpec.None? && o.analyzed.NoAnswer? ==> Constraints(o) == Raise(Model(o.analyzed.why))
    ensures o.cachedSpec.None? && o.analyzed.Answer? ==>
              && Constraints(o).Ok?
              && var (given, used) := (o.analyzed.value, Constraints(o).value);
              && used.outputUnique == given.outputUnique
              && used.sizeMax == if given.sizeMax < 1 then 1 else if given.sizeMax > 100000 then 100000 else given.sizeMax
  {}

  // ------------------------------------------------------------------ judging

  predicate Passes(o: Oracle, timeout: int, t: Test) {
    var res := o.machine(o.user, NoArgs, t.input, timeout);
    res.Exited? && res.code == 0 && Tokens(res.stdout) == Tokens(t.output)
  }

  /** The test is one the judge ran, and the user's output differs from its answer. */
  predicate Differs(o: Oracle, timeout: int, t: Test, f: Free) {
    && f.input == t.input && f.expected == t.output
    && o.machine(o.user, NoArgs, t.input, timeout).Exited?
    && o.machine(o.user, NoArgs, t.input, timeout).code == 0
    && o.machine(o.user, NoArgs, t.input, timeout).stdout == f.actual
    && Tokens(f.actual) != Tokens(f.expected)
  }

  /** The verdict of the first test, from the i-th on, that does not pass. */
  function JudgedFrom(o: Oracle, timeout: int, tests: seq<Test>, i: nat): (Verdict, Option<Free>)
    decreases |tests| - i
  {
    if i >= |tests| then (AC, None)
    else
      var res := o.machine(o.user, NoArgs, tests[i].input, timeout);
      if res.TimedOut? then (TLE, None)
      else if res.code != 0 then (RE, None)
      else if Tokens(res.stdout) != Tokens(tests[i].output) then
        (WA, Some(Free(tests[i].input, tests[i].output, res.stdout)))
      else JudgedFrom(o, timeout, tests, i + 1)
  }

  function Judged(o: Oracle, timeout: int, tests: seq<Test>): (Verdict, Option<Free>) {
    if o.compiled.Code() != 0 then (CE, None) else JudgedFrom(o, timeout, tests, 0)
  }

  /** Accepted means that every test passes; a wrong answer comes with a test that shows it. */
  lemma {:induction false} VerdictMeans(o: Oracle, timeout: int, tests: seq<Test>, i: nat)
    requires i <= |tests|
    ensures var (verdict, free) := JudgedFrom(o, timeout, tests, i);
            && (verdict == AC <==> forall j :: i <= j < |tests| ==> Passes(o, timeout, tests[j]))
            && (verdict == WA <==> free.Some?)
            && (free.Some? ==> exists j :: i <= j < |tests| && Differs(o, timeout, tests[j], free.value))
    decreases |tests| - i
  {
    if i < |tests| {
      VerdictMeans(o, timeout, tests, i + 1);
      var (verdict, free) := JudgedFrom(o, timeout, tests, i);
      var res := o.machine(o.user, NoArgs, tests[i].input, timeout);
      if res.Exited? && res.code == 0 && !Passes(o, timeout, tests[i]) {
        assert Differs(o, timeout, tests[i], free.value);
      }
    }
  }

  /** The i-th test is the first that does not pass. */
  ghost predicate FirstToFail(o: Oracle, timeout: int, tests: seq<Test>, i: nat) {
    i < |tests| && !Passes(o, timeout, tests[i]) && forall j: nat :: j < i ==> Passes(o, timeout, tests[j])
  }

  /**
   What a verdict means, and when it is given: the program does not compile, or all tests pass, the
   official ones if there are any, or the first that does not pass timed out, exited with a code other
   than 0, or printed other tokens, and is then shown.
   */
  ghost predicate VerdictIs(o: Oracle, timeout: int, official: seq<Test>, samples: seq<Test>, verdict: Verdict, free: Option<Free>) {
    var tests := if official != [] then official else samples;
    var compiles := o.compiled.Exited? && o.compiled.code == 0;
    && (verdict == CE <==> !compiles)
    && (verdict == AC <==> compiles && forall i :: 0 <= i < |tests| ==> Passes(o, timeout, tests[i]))
    && (verdict == TLE <==> compiles && exists i: nat ::
          FirstToFail(o, timeout, tests, i) && o.machine(o.user, NoArgs, tests[i].input, timeout).TimedOut?)
    && (verdict == RE <==> compiles && exists i: nat ::
          && FirstToFail(o, timeout, tests, i) && o.machine(o.user, NoArgs, tests[i].input, timeout).Exited?
          && o.machine(o.user, NoArgs, tests[i].input, timeout).code != 0)
    && (verdict == WA <==> compiles && exists i: nat ::
          FirstToFail(o, timeout, tests, i) && free.Some? && Differs(o, timeout, tests[i], free.value))
    && (free.Some? <==> verdict == WA)
  }

  lemma {:induction false} JudgedFromMeans(o: Oracle, timeout: int, tests: seq<Test>, i: nat)
    requires i <= |tests| && forall j: nat :: j < i ==> Passes(o, timeout, tests[j])
    ensures var (verdict, free) := JudgedFrom(o, timeout, tests, i);
            if forall j: nat :: j < |tests| ==> Passes(o, timeout, tests[j]) then verdict == AC && free == None
            else exists k: nat ::
              && FirstToFail(o, timeout, tests, k)
              && var res := o.machine(o.user, NoArgs, tests[k].input, timeout);
              && (verdict, free) == if res.TimedOut? then (TLE, None) else if res.code != 0 then (RE, None)
                                    else (WA, Some(Free(tests[k].input, tests[k].output, res.stdout)))
    decreases |tests| - i
  {
    if i < |tests| {
      if Passes(o, timeout, tests[i]) {
        JudgedFromMeans(o, timeout, tests, i + 1);
      } else {
        assert FirstToFail(o, timeout, tests, i);
      }
    }
  }

  lemma FirstIsUnique(o: Oracle, timeout: int, tests: seq<Test>, i: nat, j: nat)
    requires FirstToFail(o, timeout, tests, i) && FirstToFail(o, timeout, tests, j)
    ensures i == j
  {}

  lemma FailureMeans(o: Oracle, timeout: int, official: seq<Test>, samples: seq<Test>, k: nat)
    requires o.compiled.Exited? && o.compiled.code == 0
    requires FirstToFail(o, timeout, if official != [] then official else samples, k)
    ensures var test := (if official != [] then official else samples)[k];
            var res := o.machine(o.user, NoArgs, test.input, timeout);
            if res.TimedOut? then VerdictIs(o, timeout, official, samples, TLE, None)
            else if res.code != 0 then VerdictIs(o, timeout, official, samples, RE, None)
            else VerdictIs(o, timeout, official, samples, WA, Some(Free(test.input, test.output, res.stdout)))
  {
    var tests := if official != [] then official else samples;
    forall i: nat | FirstToFail(o, timeout, tests, i) ensures i == k { FirstIsUnique(o, timeout, tests, i, k); }
    var res := o.machine(o.user, NoArgs, tests[k].input, timeout);
    if res.Exited? && res.code == 0 {
      assert Differs(o, timeout, tests[k], Free(tests[k].input, tests[k].output, res.stdout));
    }
  }

  /** The verdict given is the one that these conditions single out. */
  lemma JudgedMeans(o: Oracle, timeout: int, official: seq<Test>, samples: seq<Test>)
    ensures var (verdict, free) := Judged(o, timeout, if official != [] then official else samples);
            VerdictIs(o, timeout, official, samples, verdict, free)
  {
    var tests := if official != [] then official else samples;
    JudgedFromMeans(o, timeout, tests, 0);
    assert forall j: nat :: FirstToFail(o, timeout, tests, j) ==> !Passes(o, timeout, tests[j]);
    if o.compiled.Code() == 0 && !forall j: nat :: j < |tests| ==> Passes(o, timeout, tests[j]) {
      var (verdict, free) := Judged(o, timeout, tests);
      var k: nat :|
        && FirstToFail(o, timeout, tests, k)
        && var res := o.machine(o.user, NoArgs, tests[k].input, timeout);
        && (verdict, free) == if res.TimedOut? then (TLE, None) else if res.code != 0 then (RE, None)
                              else (WA, Some(Free(tests[k].input, tests[k].output, res.stdout)));
      FailureMeans(o, timeout, official, samples, k);
    }
  }

  /** And there is only one. */
  lemma VerdictIsUnique(o: Oracle, timeout: int, official: seq<Test>, samples: seq<Test>, v: Verdict, f: Option<Free>, w: Verdict, g: Option<Free>)
    requires VerdictIs(o, timeout, official, samples, v, f) && VerdictIs(o, timeout, official, samples, w, g)
    ensures v == w && f == g
  {
    var tests := if official != [] then official else samples;
    forall i: nat, j: nat | FirstToFail(o, timeout, tests, i) && FirstToFail(o, timeout, tests, j) ensures i == j {
      FirstIsUnique(o, timeout, tests, i, j);
    }
    assert v == w;
    if v == WA {
      var i: nat :| FirstToFail(o, timeout, tests, i) && Differs(o, timeout, tests[i], f.value);
      var j: nat :| FirstToFail(o, timeout, tests, j) && Differs(o, timeout, tests[j], g.value);
      FirstIsUnique(o, timeout, tests, i, j);
      OneDifference(o, timeout, tests[i], f.value, g.value);
    }
  }

  lemma OneDifference(o: Oracle, timeout: int, t: Test, f: Free, g: Free)
    requires Differs(o, timeout, t, f) && Differs(o, timeout, t, g)
    ensures f == g
  {}

  class Context {
    const oracle: Oracle
    const settings: Settings
    const samples: seq<Test>
    const officialTests: seq<Test>
    const external: string
    var sb: Sandbox
    var spec: Spec
    var author: Option<Authored>
    var checker: string
    var revision: nat
    var roundsRun: int
    var shrinkSteps: int
    var written: seq<State>
    var operations: nat
    var choked: bool

    constructor (oracle: Oracle, settings: Settings, samples: seq<Test>, officialTests: seq<Test>, external: string)
      ensures this.oracle == oracle && this.settings == settings && this.samples == samples
      ensures this.officialTests == officialTests && this.external == external
      ensures Fresh() && written == [] && Smooth()
    {
      this.oracle, this.settings := oracle, settings;
      this.samples, this.officialTests, this.external := samples, officialTests, external;
      sb := Sandbox(oracle.machine, map[], oracle.user);
      spec, author, checker, revision := Spec(1, true), None, "", 0;
      roundsRun, shrinkSteps, written, operations, choked := 0, 0, [], 0, false;
    }

    /** Nothing was put into the sandbox yet, and no round was run. */
    ghost predicate Fresh() reads this`sb, this`checker, this`roundsRun, this`shrinkSteps {
      sb == Sandbox(oracle.machine, map[], oracle.user) && checker == "" && Counts() == Tally(0, 0)
    }

    function Counts(): Tally reads this`roundsRun, this`shrinkSteps { Tally(roundsRun, shrinkSteps) }

    /** The sandbox is the one of this attempt, with a checker in it only if the model wrote one. */
    ghost predicate Valid() reads this {
      && sb.machine == oracle.machine && sb.user == oracle.user
      && (checker == "" ==> "checker.py" !in sb.files)
    }

    function Tests(): seq<Test> { if officialTests != [] then officialTests else samples }

    /** No operation has raised so far, and the driver's events could be read. */
    ghost predicate Smooth() reads this`operations, this`choked {
      !choked && forall n :: 0 <= n < operations ==> !oracle.raises(n)
    }

    /** One operation of the sandbox or the database. */
    method Operate() returns (r: Result<()>)
      requires Smooth()
      modifies this`operations
      ensures r.Raise? ==> r.exn == Fault
      ensures Smooth() <==> r.Ok?
    {
      r := if oracle.raises(operations) then Raise(Fault) else Ok(());
      operations := operations + 1;
    }

    /** set_state; the exception may come before or after the write. */
    method SetState(state: State) returns (r: Result<()>)
      requires Smooth()
      modifies this`operations, this`written
      ensures written == old(written) + [state] || (r.Raise? && written == old(written))
      ensures r.Raise? ==> r.exn == Fault
      ensures Smooth() <==> r.Ok?
    {
      var _ :- Operate();
      written := written + [state];
      r := Operate();
    }

    /** Compile, then run the tests in order up to the first that does not pass. */
    method CompileAndJudge() returns (r: Result<(Verdict, Option<Free>)>)
      requires Smooth()
      modifies this`operations
      ensures r.Raise? ==> r.exn == Fault
      ensures Smooth() <==> r.Ok?
      ensures r.Ok? ==> r.value == Judged(oracle, settings.perRunTimeout, Tests())
      ensures r.Ok? ==> VerdictIs(oracle, settings.perRunTimeout, officialTests, samples, r.value.0, r.value.1)
    {
      JudgedMeans(oracle, settings.perRunTimeout, officialTests, samples);
      var _ :- Operate();
      if oracle.compiled.Code() != 0 { return Ok((CE, None)); }
      var tests := Tests();
      for i := 0 to |tests|
        invariant Smooth()
        invariant JudgedFrom(oracle, settings.perRunTimeout, tests, 0) == JudgedFrom(oracle, settings.perRunTimeout, tests, i)
      {
        var _ :- Operate();
        var test := tests[i];
        var res := oracle.machine(oracle.user, NoArgs, test.input, settings.perRunTimeout);
        if res.TimedOut? { return Ok((TLE, None)); }
        if res.code != 0 { return Ok((RE, None)); }
        if Tokens(res.stdout) != Tokens(test.output) {
          return Ok((WA, Some(Free(test.input, test.output, res.stdout))));
        }
      }
      return Ok((AC, None));
    }

    method Analyze() returns (r: Result<()>)
      requires Smooth()
      modifies this`operations, this`spec
      ensures Smooth() <==> r != Raise(Fault)
      ensures r != Raise(Fault) ==> Constraints(oracle) == if r.Ok? then Ok(spec) else Raise(r.exn)
    {
      var _ :- Operate();
      if oracle.cachedSpec.Some? {
        spec := oracle.cachedSpec.value;
        return Ok(());
      }
      var answer :- oracle.analyzed.AsResult();
      spec := answer.(sizeMax := Max(1, Min(answer.sizeMax, MAX_SIZE_KNOB)));
      r := Operate();
    }

    method AuthorChecker() returns (r: Result<()>)
      requires Valid() && checker == ""
      requires Smooth()
      modifies this`operations, this`checker
      ensures Valid()
      ensures Smooth() <==> r != Raise(Fault)
      ensures r != Raise(Fault) ==> oracle.checked.AsResult() == if r.Ok? then Ok(checker) else Raise(r.exn)
    {
      var _ :- Operate();
      var answer :- oracle.checked.AsResult();
      checker := answer;
      r := Operate();
    }

    /** Ask for a revision; after a failure, for a repair of the last one. */
    method Author(failure: Gate) returns (r: Result<()>)
      requires Smooth()
      modifies this`operations, this`author
      ensures r.Ok? ==> author.Some? && oracle.authored(revision, PromptFor(spec, old(author), failure)) == Answer(author.value)
      ensures r.Raise? && r.exn != Fault ==>
        oracle.authored(revision, PromptFor(spec, old(author), failure)).AsResult() == Raise(r.exn)
      ensures Smooth() <==> r != Raise(Fault)
    {
      var _ :- Operate();
      var answer :- oracle.authored(revision, PromptFor(spec, author, failure)).AsResult();
      author := Some(answer);
      r := Operate();
    }

    /** Halve the size knob in place until the brute force fits. */
    method CalibrateSize() returns (r: Result<Gate>)
      requires Smooth()
      modifies this`operations, this`spec
      ensures r.Raise? ==> r.exn == Fault
      ensures Smooth() <==> r.Ok?
      ensures r.Ok? ==> (r.value, spec.sizeMax) == Calibrated(sb, old(spec.sizeMax), MAX_CALIBRATION_STEPS)
      ensures spec.outputUnique == old(spec.outputUnique)
    {
      var step := 0;
      while step < MAX_CALIBRATION_STEPS
        invariant Smooth() && 0 <= step <= MAX_CALIBRATION_STEPS && spec.outputUnique == old(spec.outputUnique)
        invariant Calibrated(sb, spec.sizeMax, MAX_CALIBRATION_STEPS - step)
               == Calibrated(sb, old(spec.sizeMax), MAX_CALIBRATION_STEPS)
      {
        var _ :- Operate();
        var size := spec.sizeMax;
        var probe := SizeProbe(sb, size);
        if probe.TooSlow? {
          if size <= 1 { return Ok(Rejected("too slow at size 1")); }
          spec := spec.(sizeMax := Max(1, size / 2));
        } else {
          return Ok(probe);
        }
        step := step + 1;
      }
      return Ok(Rejected("no workable size"));
    }

    /** The brute force reproduces every sample. */
    method CheckSamples() returns (r: Result<bool>)
      requires Smooth()
      modifies this`operations
      ensures r.Raise? ==> r.exn == Fault
      ensures Smooth() <==> r.Ok?
      ensures r.Ok? ==> (r.value <==> forall i :: 0 <= i < |samples| ==> Reproduces(sb, checker, samples[i]))
      ensures r.Ok? && author.Some? && Installed(sb, author.value, checker) ==>
        (r.value <==> forall i :: 0 <= i < |samples| ==> Agrees(sb.machine, author.value, checker, samples[i]))
    {
      if author.Some? && Installed(sb, author.value, checker) { SamplesMean(sb, author.value, checker, samples); }
      for i := 0 to |samples|
        invariant Smooth()
        invariant forall j :: 0 <= j < i ==> Reproduces(sb, checker, samples[j])
      {
        var _ :- Operate();
        if !Reproduces(sb, checker, samples[i]) { return Ok(false); }
      }
      r := Ok(true);
    }

    /** Install the revision and run the gates. A first probe that is too slow goes back to the author as it is. */
    method Validate() returns (r: Result<Gate>)
      requires Valid() && author.Some?
      requires Smooth()
      modifies this`operations, this`spec, this`sb
      ensures Valid()
      ensures r.Raise? ==> r.exn == Fault
      ensures Smooth() <==> r.Ok?
      ensures r.Ok? ==> sb == Install(old(sb), author.value, checker)
      ensures r.Ok? ==> spec == old(spec).(sizeMax := SizeAfter(sb, old(spec.sizeMax)))
      ensures r.Ok? ==> r.value == GateOf(sb, checker, samples, old(spec.sizeMax))
      ensures r.Ok? ==> (r.value.Passed? <==> GatesHold(sb, checker, samples, old(spec.sizeMax)))
      ensures r.Ok? ==> (r.value.Passed? ==> Accepted(sb, author.value, checker, samples, spec.sizeMax))
      ensures r.Ok? ==> (r.value.TooSlow? <==> AllCompile(sb) && SizeProbe(sb, 1).TooSlow?)
    {
      var _ :- Operate();
      InstallInstalls(sb, author.value, checker);
      sb := Install(sb, author.value, checker);
      if !Compiles(sb, "brute.py") || !Compiles(sb, "generator.py") || !Compiles(sb, "validator.py") {
        return Ok(Rejected("syntax"));
      }
      var first := SizeProbe(sb, 1);
      if !first.Passed? { return Ok(first); }
      CalibratedIsNotTooSlow(sb, spec.sizeMax, MAX_CALIBRATION_STEPS);
      var fits :- CalibrateSize();
      if !fits.Passed? { return Ok(fits); }
      var reproduced :- CheckSamples();
      r := Ok(if reproduced then Passed else Rejected("sample"));
      if reproduced { GatesAccept(old(sb), author.value, checker, samples, old(spec.sizeMax)); }
    }

    /** Follow the events up to the first final one. */
    method Follow(events: seq<Event>) returns (r: Result<Option<Event>>)
      requires Smooth()
      modifies this`operations, this`roundsRun, this`shrinkSteps
      ensures r.Raise? ==> r.exn == Fault
      ensures Smooth() <==> r.Ok?
      ensures r.Ok? ==> r.value == FinalEvent(events) && Counts() == Counted(events, old(Counts()))
    {
      var i := 0;
      assert events[0..] == events;
      while i < |events|
        invariant Smooth() && 0 <= i <= |events| && FinalEvent(events) == FinalEvent(events[i..])
        invariant Counted(events, old(Counts())) == Counted(events[i..], Counts())
      {
        var _ :- Operate();
        var event := events[i];
        assert events[i..][1..] == events[i + 1..];
        match event {
          case Progress(round, _) => roundsRun := round;
          case Disagreement(_, _, _) =>
          case Shrunk(_, _) => shrinkSteps := shrinkSteps + 1;
          case DoneFound(rounds, steps, _) =>
            roundsRun, shrinkSteps := rounds, steps;
            return Ok(Some(event));
          case DoneEmpty(rounds, _) =>
            roundsRun := rounds;
            return Ok(Some(event));
          case Stalled =>
            return Ok(Some(event));
        }
        i := i + 1;
      }
      return Ok(None);
    }

    /**
     Run the driver in the sandbox and follow its events. A mismatch is never made up, and it is lost
     only if the final event does not arrive.
     */
    method Stress() returns (r: Result<Option<Mismatch>>)
      requires Smooth() && Valid() && NonDecreasing(oracle.clock) && Counts() == Tally(0, 0)
      modifies this`operations, this`choked, this`roundsRun, this`shrinkSteps
      ensures r.Raise? ==> r.exn == Fault
      ensures Smooth() <==> r.Ok?
      ensures choked ==> oracle.delivery.Chokes()
      ensures r.Ok? ==> Stressed(oracle, settings, sb, spec, r.value, Counts())
    {
      var _ :- Operate();
      var cfg := DriverConfig(settings, spec.sizeMax);
      var log, last := RoundLoop(sb, cfg, oracle.rawSize, oracle.clock);
      var final :- Follow(Delivered(oracle.delivery, log + [last]));
      if final.None? && oracle.delivery.Chokes() {
        choked := true;
        return Raise(Fault);
      }
      r := Ok(if final.Some? && final.value.DoneFound? then Some(final.value.minimal) else None);
      StressedBy(oracle, settings, sb, spec, log, last, r.value, Counts());
    }
  }

  /** What the worker makes of the driver's events: it ends at the first final one, and raises if it chokes before. */
  ghost predicate Relayed(d: Delivery, events: seq<Event>, found: Option<Mismatch>, tally: Tally) {
    var arrived := Delivered(d, events);
    var final := FinalEvent(arrived);
    && found == (if final.Some? && final.value.DoneFound? then Some(final.value.minimal) else None)
    && tally == Counted(arrived, Tally(0, 0))
    && (d.Chokes() ==> final.Some?)
  }

  /** Exactly the first n events arrive when the stream breaks off after n, and all of them otherwise. */
  lemma ArrivesInOrder(d: Delivery, events: seq<Event>)
    ensures d.Complete? ==> Delivered(d, events) == events
    ensures d.Cut? ==>
      var n := if d.events < |events| then d.events else |events|;
      && |Delivered(d, events)| == n + (if d.how == Stalls then 1 else 0)
      && (forall k :: 0 <= k < n ==> Delivered(d, events)[k] == events[k])
      && (d.how == Stalls ==> Delivered(d, events)[n] == Stalled)
  {}

  ghost predicate DriverRan(o: Oracle, s: Settings, sb: Sandbox, spec: Spec, log: seq<Event>, last: Event) {
    Ran(sb, DriverConfig(s, spec.sizeMax), o.rawSize, o.clock, log, last)
  }

  /** The stress run in this sandbox is one truthful run of the driver, relayed as far as its events arrive. */
  ghost predicate Stressed(o: Oracle, s: Settings, sb: Sandbox, spec: Spec, found: Option<Mismatch>, tally: Tally) {
    exists log, last :: DriverRan(o, s, sb, spec, log, last) && Relayed(o.delivery, log + [last], found, tally)
  }

  lemma StressedBy(o: Oracle, s: Settings, sb: Sandbox, spec: Spec, log: seq<Event>, last: Event,
                   found: Option<Mismatch>, tally: Tally)
    requires DriverRan(o, s, sb, spec, log, last) && Relayed(o.delivery, log + [last], found, tally)
    ensures Stressed(o, s, sb, spec, found, tally)
  {}

  /** A mismatch is never made up, however the stream is cut. */
  lemma StressedIsGenuine(o: Oracle, s: Settings, sb: Sandbox, spec: Spec, found: Mismatch, tally: Tally)
    requires Stressed(o, s, sb, spec, Some(found), tally)
    ensures Genuine(sb, found, s.perRunTimeout)
  {
    var log, last :| DriverRan(o, s, sb, spec, log, last) && Relayed(o.delivery, log + [last], Some(found), tally);
    DeliveredFinal(o.delivery, log, last);
    TruthIsGenuine(sb, DriverConfig(s, spec.sizeMax), o.rawSize, o.clock, last);
  }

  /** And nothing is lost if all events arrive. */
  lemma StressedReports(o: Oracle, s: Settings, sb: Sandbox, spec: Spec, found: Option<Mismatch>, tally: Tally) returns (last: Event)
    requires Stressed(o, s, sb, spec, found, tally) && o.delivery.Complete?
    ensures Reports(last, found, tally) && Truthful(sb, DriverConfig(s, spec.sizeMax), o.rawSize, o.clock, last)
  {
    var log, final :| DriverRan(o, s, sb, spec, log, final) && Relayed(o.delivery, log + [final], found, tally);
    DeliveredFinal(o.delivery, log, final);
    CountedAtEnd(log, final, Tally(0, 0));
    last := final;
  }

  /** A stress run is over only when a final event arrived, or the driver ended or went silent: choking at once ends no run. */
  lemma ChokedIsNoEnd(o: Oracle, s: Settings, sb: Sandbox, spec: Spec, found: Option<Mismatch>, tally: Tally)
    requires o.delivery == Cut(0, Chokes)
    ensures !Stressed(o, s, sb, spec, found, tally)
  {}

  /** The mismatch and the numbers are those of the driver's final event. */
  predicate Reports(last: Event, found: Option<Mismatch>, tally: Tally) {
    match last
    case DoneFound(rounds, steps, minimal) => found == Some(minimal) && tally == Tally(rounds, steps)
    case DoneEmpty(rounds, _) => found == None && tally.rounds == rounds
    case _ => false
  }

  /** Rounds and steps after these events: progress overwrites, shrinking adds, the final event decides. */
  function Counted(events: seq<Event>, tally: Tally): Tally {
    if events == [] then tally
    else
      match events[0]
      case Progress(round, _) => Counted(events[1..], tally.(rounds := round))
      case Disagreement(_, _, _) => Counted(events[1..], tally)
      case Shrunk(_, _) => Counted(events[1..], tally.(steps := tally.steps + 1))
      case DoneFound(rounds, steps, _) => Tally(rounds, steps)
      case DoneEmpty(rounds, _) => tally.(rounds := rounds)
      case Stalled => tally
  }

  /** When the stream breaks off, the last progress and the number of shrink events are what was counted. */
  lemma {:induction false} CountedSoFar(log: seq<Event>, event: Event, tally: Tally)
    requires (forall e :: e in log ==> !e.IsDone()) && !event.DoneFound? && !event.DoneEmpty?
    ensures Counted(log + [event], tally) ==
              match event
              case Progress(round, _) => Tally(round, Counted(log, tally).steps)
              case Shrunk(_, _) => Tally(Counted(log, tally).rounds, Counted(log, tally).steps + 1)
              case _ => Counted(log, tally)
  {
    if log != [] {
      assert log[0] in log && (forall e :: e in log[1..] ==> e in log);
      assert (log + [event])[1..] == log[1..] + [event];
      var t := match log[0]
        case Progress(round, _) => tally.(rounds := round)
        case Shrunk(_, _) => tally.(steps := tally.steps + 1)
        case _ => tally;
      CountedSoFar(log[1..], event, t);
    }
  }

  /** Whatever was counted on the way, a final event that arrives settles the numbers it carries. */
  lemma {:induction false} CountedAtEnd(log: seq<Event>, last: Event, tally: Tally)
    requires forall e :: e in log ==> !e.IsDone()
    ensures last.DoneFound? ==> Counted(log + [last], tally) == Tally(last.rounds, last.steps)
    ensures last.DoneEmpty? ==> Counted(log + [last], tally).rounds == last.rounds
  {
    if log != [] {
      assert log[0] in log && (forall e :: e in log[1..] ==> e in log);
      assert (log + [last])[1..] == log[1..] + [last];
      var t := match log[0]
        case Progress(round, _) => tally.(rounds := round)
        case Shrunk(_, _) => tally.(steps := tally.steps + 1)
        case _ => tally;
      CountedAtEnd(log[1..], last, t);
    }
  }

  function FinalEvent(events: seq<Event>): (final: Option<Event>)
    ensures final.Some? ==> final.value.IsDone()
  {
    if events == [] then None else if events[0].IsDone() then Some(events[0]) else FinalEvent(events[1..])
  }

  lemma {:induction false} FinalAfterQuiet(quiet: seq<Event>, rest: seq<Event>)
    requires forall e :: e in quiet ==> !e.IsDone()
    ensures FinalEvent(quiet + rest) == FinalEvent(rest)
  {
    if quiet == [] {
      assert quiet + rest == rest;
    } else {
      assert quiet[0] in quiet && (forall e :: e in quiet[1..] ==> e in quiet);
      assert (quiet + rest)[1..] == quiet[1..] + rest;
      FinalAfterQuiet(quiet[1..], rest);
    }
  }

  /** What arrives ends with the driver's final event, with a stall, or without a final event. */
  lemma DeliveredFinal(d: Delivery, log: seq<Event>, last: Event)
    requires last.IsDone() && forall e :: e in log ==> !e.IsDone()
    ensures var final := FinalEvent(Delivered(d, log + [last]));
            match d
            case Complete => final == Some(last)
            case Cut(n, how) => final == if n > |log| then Some(last) else if how.Stalls? then Some(Stalled) else None
  {
    match d
    case Complete =>
      FinalAfterQuiet(log, [last]);
    case Cut(n, how) =>
      var tail := if how.Stalls? then [Stalled] else [];
      if n <= |log| {
        assert (log + [last])[..n] == log[..n];
        assert forall e :: e in log[..n] ==> e in log;
        FinalAfterQuiet(log[..n], tail);
      } else {
        assert Delivered(d, log + [last]) == log + ([last] + tail);
        FinalAfterQuiet(log, [last] + tail);
      }
  }

  function DriverConfig(s: Settings, sizeMax: int): Config {
    Config(s.stressRounds, 1, sizeMax, 1, s.stressBudget, s.perRunTimeout, SEEDS_PER_SIZE)
  }

  lemma InstallInstalls(sb: Sandbox, a: Authored, checker: string)
    requires checker == "" ==> "checker.py" !in sb.files
    ensures Installed(Install(sb, a, checker), a, checker)
    ensures Install(sb, a, checker).machine == sb.machine && Install(sb, a, checker).user == sb.user
  {}

  /** Passing the gates leaves the sandbox with an accepted revision. */
  lemma GatesAccept(sb: Sandbox, a: Authored, checker: string, samples: seq<Test>, size: int)
    requires checker == "" ==> "checker.py" !in sb.files
    requires GatesHold(Install(sb, a, checker), checker, samples, size)
    ensures Accepted(Install(sb, a, checker), a, checker, samples, SizeAfter(Install(sb, a, checker), size))
  {
    var box := Install(sb, a, checker);
    InstallInstalls(sb, a, checker);
    GatesMean(box, a, checker, samples, size);
    var k: nat :| k < 10 && Settles(box.machine, a, size, k);
    assert SizeAfter(box, size) == Halving(size, k);
  }

  lemma {:induction false} CalibratedIsNotTooSlow(sb: Sandbox, size: int, steps: nat)
    ensures !Calibrated(sb, size, steps).0.TooSlow?
    decreases steps
  {
    if steps > 0 && SizeProbe(sb, size).TooSlow? && size > 1 {
      CalibratedIsNotTooSlow(sb, Max(1, size / 2), steps - 1);
    }
  }

  /** The mismatch of a truthful final event is a genuine counterexample. */
  lemma TruthIsGenuine(sb: Sandbox, cfg: Config, raw: RawSize, clock: nat -> real, last: Event)
    requires Truthful(sb, cfg, raw, clock, last) && last.DoneFound?
    ensures Genuine(sb, last.minimal, cfg.timeout)
  {
    var i := last.rounds - 1;
    var first := Round(sb, cfg, raw, i).value;
    ProbeIsGenuine(sb, cfg.seedBase + i, PickSize(i, cfg.sizeMin, cfg.sizeMax, cfg.rounds, raw), cfg.timeout);
    if last.minimal != first {
      ShrinkIsMinimal(sb, first, cfg.timeout, cfg.seedsPerSize, last.minimal);
    }
  }
}
