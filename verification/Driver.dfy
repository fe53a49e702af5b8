/**
 The in-container stress driver: one probe, the shrink search, the choice of sizes and the
 round loop. Executions are deterministic, and the monotonic clock is a stream of readings, one
 for each time the loops look at it.
 */
module Driver {
  import opened Prelude
  import opened Programs

  datatype Reason = Timeout | RuntimeError(code: int, stderr: string) | WrongAnswer

  datatype Mismatch = Mismatch(
    seed: int, size: int, input: string, expected: string, actual: string, reason: Reason)

  // ---------------------------------------------------------------- one round

  /** True when the user's output is acceptable: by the checker when there is one, else token by token. */
  function CheckOutputs(sb: Sandbox, input: string, userOut: string, bruteOut: string, timeout: int): bool {
    if "checker.py" in sb.files then
      sb.Run("checker.py", Contents(input, userOut, bruteOut), "", timeout).Code() == 0
    else
      Tokens(userOut) == Tokens(bruteOut)
  }

  function Probe(sb: Sandbox, seed: int, size: int, timeout: int): Option<Mismatch> {
    var gen := sb.Run("generator.py", SeedSize(seed, size), "", timeout);
    if gen.Code() != 0 || Tokens(gen.stdout) == [] then None
    else
      var input := gen.stdout;
      if "validator.py" in sb.files && sb.Run("validator.py", NoArgs, input, timeout).Code() != 0 then None
      else
        var brute := sb.Run("brute.py", NoArgs, input, timeout * 3);
        if brute.TimedOut? || brute.Code() != 0 then None
        else
          var user := sb.RunUser(input, timeout);
          if user.TimedOut? then
            Some(Mismatch(seed, size, input, brute.stdout, "", Timeout))
          else if user.Code() != 0 then
            Some(Mismatch(seed, size, input, brute.stdout, user.stdout,
                          RuntimeError(user.code, user.stderr[..Min(|user.stderr|, 200)])))
          else if !CheckOutputs(sb, input, user.stdout, brute.stdout, timeout) then
            Some(Mismatch(seed, size, input, brute.stdout, user.stdout, WrongAnswer))
          else None
  }

  /** The input is what the generator prints at the recorded seed and size, and the validator accepts it. */
  ghost predicate LegalInput(sb: Sandbox, m: Mismatch, timeout: int) {
    && "generator.py" in sb.files
    && (exists err :: sb.machine(sb.files["generator.py"], SeedSize(m.seed, m.size), "", timeout) == Exited(m.input, err, 0))
    && !Blank(m.input)
    && ("validator.py" in sb.files ==>
          exists out, err :: sb.machine(sb.files["validator.py"], NoArgs, m.input, timeout) == Exited(out, err, 0))
  }

  /** The brute force exits normally on the input, in three times the time, and prints `expected`. */
  ghost predicate ReferenceAnswer(sb: Sandbox, m: Mismatch, timeout: int) {
    && "brute.py" in sb.files
    && exists err :: sb.machine(sb.files["brute.py"], NoArgs, m.input, timeout * 3) == Exited(m.expected, err, 0)
  }

  /**
   The user's program times out, crashes, or prints an answer that is rejected: by the checker, which then
   does not exit with 0, or else because its tokens are not those of the reference.
   */
  ghost predicate UserFails(sb: Sandbox, m: Mismatch, timeout: int) {
    var user := sb.machine(sb.user, NoArgs, m.input, timeout);
    match m.reason
    case Timeout => user.TimedOut? && m.actual == ""
    case RuntimeError(code, stderr) =>
      && user.Exited? && user.code == code != 0 && user.stdout == m.actual
      && stderr == if |user.stderr| <= 200 then user.stderr else user.stderr[..200]
    case WrongAnswer =>
      && user.Exited? && user.code == 0 && user.stdout == m.actual
      && if "checker.py" in sb.files then
           var verdict := sb.machine(sb.files["checker.py"], Contents(m.input, m.actual, m.expected), "", timeout);
           verdict.TimedOut? || verdict.code != 0
         else
           Tokens(m.actual) != Tokens(m.expected)
  }

  /** What a counterexample found by the driver is worth. */
  ghost predicate Genuine(sb: Sandbox, m: Mismatch, timeout: int) {
    LegalInput(sb, m, timeout) && ReferenceAnswer(sb, m, timeout) && UserFails(sb, m, timeout)
  }

  /** A probe reports only genuine counterexamples, under the seed and size it was given. */
  lemma ProbeIsGenuine(sb: Sandbox, seed: int, size: int, timeout: int)
    ensures var p := Probe(sb, seed, size, timeout);
            p.Some? ==> p.value.seed == seed && p.value.size == size && Genuine(sb, p.value, timeout)
  {
    var gen := sb.Run("generator.py", SeedSize(seed, size), "", timeout);
    NoTokensIffBlank(gen.stdout, "");
    var p := Probe(sb, seed, size, timeout);
    if p.Some? {
      var m := p.value;
      assert gen == Exited(m.input, gen.stderr, 0);
      var brute := sb.Run("brute.py", NoArgs, m.input, timeout * 3);
      assert brute == Exited(m.expected, brute.stderr, 0);
      var val := sb.Run("validator.py", NoArgs, m.input, timeout);
      assert "validator.py" in sb.files ==> val == Exited(val.stdout, val.stderr, 0);
    }
  }

  /** And it misses none: a genuine counterexample at (seed, size) is the one that the probe reports. */
  lemma GenuineIsProbed(sb: Sandbox, m: Mismatch, timeout: int)
    requires Genuine(sb, m, timeout)
    ensures Probe(sb, m.seed, m.size, timeout) == Some(m)
  {
    NoTokensIffBlank(m.input, "");
    var user := sb.machine(sb.user, NoArgs, m.input, timeout);
    if user.Exited? { assert user.stderr[..|user.stderr|] == user.stderr; }
  }

  /**
   On a legal input with a reference answer, a program that ends normally is reported exactly when the
   checker rejects what it printed, or, without a checker, when its tokens differ.
   */
  lemma ProbeJudges(sb: Sandbox, m: Mismatch, timeout: int)
    requires LegalInput(sb, m, timeout) && ReferenceAnswer(sb, m, timeout) && m.reason == WrongAnswer
    requires exists err :: sb.machine(sb.user, NoArgs, m.input, timeout) == Exited(m.actual, err, 0)
    ensures Probe(sb, m.seed, m.size, timeout) == Some(m) || Probe(sb, m.seed, m.size, timeout) == None
    ensures Probe(sb, m.seed, m.size, timeout) == None <==>
              if "checker.py" in sb.files then
                exists out, err ::
                  sb.machine(sb.files["checker.py"], Contents(m.input, m.actual, m.expected), "", timeout) == Exited(out, err, 0)
              else
                Tokens(m.actual) == Tokens(m.expected)
  {
    NoTokensIffBlank(m.input, "");
    if "checker.py" in sb.files {
      var verdict := sb.machine(sb.files["checker.py"], Contents(m.input, m.actual, m.expected), "", timeout);
      assert verdict.Exited? ==> verdict == Exited(verdict.stdout, verdict.stderr, verdict.code);
    }
  }

  // ---------------------------------------------------------- shrink candidates

  /** The step to the next geometric candidate: half as much again, and at least one more. */
  function NextStep(step: int): int { Max(step + 1, 3 * step / 2) }

  function Range(from: int, to: int): seq<int> {
    seq(Max(0, to - from), i => from + i)
  }

  function Geometric(step: int, bound: int): seq<int>
    decreases bound - step
  {
    if step >= bound then [] else [step] + Geometric(NextStep(step), bound)
  }

  function Candidates(foundSize: int): seq<int> {
    Range(1, Min(foundSize, 31)) + Geometric(31, foundSize)
  }

  function Below(sizes: seq<int>, bound: int): seq<int> {
    if sizes == [] then []
    else (if sizes[0] < bound then [sizes[0]] else []) + Below(sizes[1..], bound)
  }

  lemma {:induction false} BelowKeepsAll(sizes: seq<int>, bound: int)
    requires forall s :: s in sizes ==> s < bound
    ensures Below(sizes, bound) == sizes
  {
    if sizes != [] {
      assert sizes[0] in sizes && forall s :: s in sizes[1..] ==> s in sizes;
      BelowKeepsAll(sizes[1..], bound);
    }
  }

  method ShrinkCandidates(foundSize: int) returns (sizes: seq<int>)
    ensures sizes == Candidates(foundSize)
  {
    sizes := Range(1, Min(foundSize, 31));
    ghost var dense, geometric := sizes, [];
    var step := 31;
    while step < foundSize
      invariant sizes == dense + geometric
      invariant geometric + Geometric(step, foundSize) == Geometric(31, foundSize)
      decreases foundSize - step
    {
      Associate(geometric, [step], Geometric(NextStep(step), foundSize));
      Associate(dense, geometric, [step]);
      sizes := sizes + [step];
      geometric := geometric + [step];
      step := NextStep(step);
    }
    assert sizes == Candidates(foundSize);
    CandidatesWithin(foundSize);
    BelowKeepsAll(sizes, foundSize);
    sizes := Below(sizes, foundSize);
  }

  ghost predicate Increasing(sizes: seq<int>) {
    forall i, j :: 0 <= i < j < |sizes| ==> sizes[i] < sizes[j]
  }

  lemma {:induction false} GeometricWithin(step: int, bound: int, j: nat)
    requires j < |Geometric(step, bound)|
    ensures step <= Geometric(step, bound)[j] < bound
    ensures j > 0 ==> step < Geometric(step, bound)[j]
    decreases bound - step
  {
    if j > 0 { GeometricWithin(NextStep(step), bound, j - 1); }
  }

  lemma {:induction false} GeometricIncreases(step: int, bound: int, i: nat, j: nat)
    requires i < j < |Geometric(step, bound)|
    ensures Geometric(step, bound)[i] < Geometric(step, bound)[j]
    decreases bound - step
  {
    if i == 0 {
      GeometricWithin(step, bound, j);
    } else {
      GeometricIncreases(NextStep(step), bound, i - 1, j - 1);
    }
  }

  /** Every candidate lies in [1, found), in strictly increasing order: the final filter drops nothing. */
  lemma CandidatesWithin(foundSize: int)
    ensures Increasing(Candidates(foundSize))
    ensures forall s :: s in Candidates(foundSize) ==> 1 <= s < foundSize
  {
    var d := |Range(1, Min(foundSize, 31))|;
    forall j | 0 <= j < |Candidates(foundSize)| ensures 1 <= Candidates(foundSize)[j] < foundSize {
      if j >= d { GeometricWithin(31, foundSize, j - d); }
    }
    forall i, j | 0 <= i < j < |Candidates(foundSize)| ensures Candidates(foundSize)[i] < Candidates(foundSize)[j] {
      if i >= d {
        GeometricIncreases(31, foundSize, i - d, j - d);
      } else if j >= d {
        GeometricWithin(31, foundSize, j - d);
      }
    }
  }

  /** The sizes a reader can work with are all there. */
  lemma CandidatesDense(foundSize: int, size: int)
    requires 1 <= size <= Min(foundSize - 1, 30)
    ensures size in Candidates(foundSize)
  {
    assert Range(1, Min(foundSize, 31))[size - 1] == size;
    assert Candidates(foundSize)[size - 1] == size;
  }

  /** The step minus one grows by at least one half each time, so the list is logarithmic in the size. */
  lemma {:induction false} GeometricIsLogarithmic(step: int, bound: int)
    requires 2 <= step < bound
    ensures var k := |Geometric(step, bound)|;
            k >= 1 && (step - 1) * Pow(3, k - 1) <= (bound - 2) * Pow(2, k - 1)
    decreases bound - step
  {
    var next := NextStep(step);
    if next < bound {
      GeometricIsLogarithmic(next, bound);
      var k := |Geometric(next, bound)|;
      ScaleStep(step - 1, next - 1, bound - 2, Pow(3, k - 1), Pow(2, k - 1));
    } else {
      assert Geometric(next, bound) == [];
    }
  }

  lemma ScaleStep(a: nat, b: nat, c: nat, three: nat, two: nat)
    requires 3 * a <= 2 * b && b * three <= c * two
    ensures a * (3 * three) <= c * (2 * two)
  {
    MulMonotone(three, 3 * a, 2 * b);
    assert three * (3 * a) == a * (3 * three) && three * (2 * b) == 2 * (b * three);
    assert c * (2 * two) == 2 * (c * two);
  }

  lemma {:induction false} MulMonotone(c: nat, a: nat, b: nat)
    requires a <= b
    ensures c * a <= c * b
  {
    if c > 0 { MulMonotone(c - 1, a, b); }
  }

  lemma CandidatesAreLogarithmic(foundSize: int)
    requires foundSize > 31
    ensures var k := |Candidates(foundSize)| - 30;
            k >= 1 && 30 * Pow(3, k - 1) <= (foundSize - 2) * Pow(2, k - 1)
  {
    GeometricIsLogarithmic(31, foundSize);
  }

  // ------------------------------------------------------------------- shrink

  /** The first disagreement at `size` under the seeds from `seed` up to, not including, `limit`. */
  function SeedHit(sb: Sandbox, seed: int, limit: int, size: int, timeout: int): Option<Mismatch>
    decreases limit - seed
  {
    if seed >= limit then None
    else
      var p := Probe(sb, seed, size, timeout);
      if p.Some? then p else SeedHit(sb, seed + 1, limit, size, timeout)
  }

  /** The first disagreement in the order of the sizes: what shrinking aims for. */
  function FirstHit(sb: Sandbox, base: int, seeds: int, sizes: seq<int>, timeout: int): Option<Mismatch> {
    if sizes == [] then None
    else
      var hit := SeedHit(sb, base, base + seeds, sizes[0], timeout);
      if hit.Some? then hit else FirstHit(sb, base, seeds, sizes[1..], timeout)
  }

  function ShrinkGoal(sb: Sandbox, found: Mismatch, timeout: int, seedsPerSize: int): Option<Mismatch> {
    FirstHit(sb, found.seed * 7919, seedsPerSize, Candidates(found.size), timeout)
  }

  /** The most probes shrinking may make: one for each candidate size and seed. */
  function Probes(foundSize: int, seedsPerSize: int): nat { Total(Max(0, seedsPerSize), |Candidates(foundSize)|) }

  lemma ProbesAreProduct(foundSize: int, seedsPerSize: int)
    ensures Probes(foundSize, seedsPerSize) == Max(0, seedsPerSize) * |Candidates(foundSize)|
  {
    TotalIsProduct(Max(0, seedsPerSize), |Candidates(foundSize)|);
  }

  /** How often shrinking may look at the clock: once for each candidate size and once for each seed. */
  function Readings(foundSize: int, seedsPerSize: int): nat { Total(Max(0, seedsPerSize) + 1, |Candidates(foundSize)|) }

  datatype Stop = OutOfTime | Exhausted

  /** `Stalled` does not come from the driver: it is what the worker sees when the driver goes silent. */
  datatype Event =
    | Progress(round: int, rounds: int)
    | Disagreement(seed: int, size: int, reason: Reason)
    | Shrunk(size: int, seed: int)
    | DoneFound(rounds: int, steps: nat, minimal: Mismatch)
    | DoneEmpty(rounds: int, why: Stop)
    | Stalled
  {
    predicate IsDone() { DoneFound? || DoneEmpty? || Stalled? }
  }

  /** The seeds of one size, in order, up to the first disagreement or the deadline. */
  method TrySeeds(sb: Sandbox, base: int, size: int, timeout: int, seedsPerSize: int, deadline: real,
                  clock: nat -> real, start: nat)
    returns (candidate: Option<Mismatch>, expired: bool, tried: nat, end: nat)
    ensures start + tried <= end <= start + Max(0, seedsPerSize)
    ensures if expired then candidate.None? && end > start && clock(end - 1) > deadline
            else candidate == SeedHit(sb, base, base + seedsPerSize, size, timeout)
    ensures candidate.Some? ==> candidate.value.size == size && tried == candidate.value.seed - base + 1
    ensures candidate.None? && !expired ==> tried == Max(0, seedsPerSize)
    ensures tried > 0 ==> clock(start + tried - 1) <= deadline
  {
    candidate, expired, tried, end := None, false, 0, start;
    var k := 0;
    while k < seedsPerSize
      invariant 0 <= k <= Max(0, seedsPerSize) && tried == k && end == start + k
      invariant candidate.None? && !expired && (k > 0 ==> clock(start + k - 1) <= deadline)
      invariant SeedHit(sb, base, base + seedsPerSize, size, timeout)
             == SeedHit(sb, base + k, base + seedsPerSize, size, timeout)
    {
      expired := clock(end) > deadline;
      end := end + 1;
      if expired { break; }
      tried := tried + 1;
      candidate := Probe(sb, base + k, size, timeout);
      ProbeIsGenuine(sb, base + k, size, timeout);
      if candidate.Some? { return; }
      k := k + 1;
    }
  }

  /**
   The probes it takes to come to this mismatch: all seeds at each smaller candidate, and those up to its
   own seed at its size.
   */
  ghost predicate StepsTo(found: Mismatch, seedsPerSize: int, best: Mismatch, steps: nat) {
    exists i: nat :: i < |Candidates(found.size)| && Candidates(found.size)[i] == best.size &&
      steps == Total(Max(0, seedsPerSize), i) + best.seed - found.seed * 7919 + 1
  }

  /**
   How shrinking ends. A new mismatch is the first disagreement, whatever the deadline did; running out of
   time leaves the one that was found. The steps are the probes made, each begun before the deadline.
   */
  ghost predicate ShrinkEnds(sb: Sandbox, found: Mismatch, timeout: int, seedsPerSize: int, deadline: real,
                             clock: nat -> real, start: nat, best: Mismatch, steps: nat, end: nat)
  {
    var goal := ShrinkGoal(sb, found, timeout, seedsPerSize);
    && start <= end <= start + Readings(found.size, seedsPerSize)
    && (steps > 0 ==> clock(start + steps - 1) <= deadline)
    && if best != found then goal == Some(best) && StepsTo(found, seedsPerSize, best, steps)
       else
         && steps <= Probes(found.size, seedsPerSize)
         && ((forall t :: start <= t < end ==> clock(t) <= deadline) ==> goal == None && steps == Probes(found.size, seedsPerSize))
  }

  /** Before candidate i: out of time, or all seeds at the candidates before it were tried and silent. */
  ghost predicate Midway(sb: Sandbox, found: Mismatch, timeout: int, seedsPerSize: int, deadline: real, clock: nat -> real,
                         start: nat, expired: bool, steps: nat, end: nat, i: nat)
  {
    var seeds, sizes := Max(0, seedsPerSize), Candidates(found.size);
    && i <= |sizes| && start + steps <= end <= start + Total(seeds + 1, i)
    && steps <= Total(seeds, i) && (steps > 0 ==> clock(start + steps - 1) <= deadline)
    && if expired then end > start && clock(end - 1) > deadline
       else
         && steps == Total(seeds, i)
         && ShrinkGoal(sb, found, timeout, seedsPerSize) == FirstHit(sb, found.seed * 7919, seedsPerSize, sizes[i..], timeout)
  }

  lemma MidwayAtStart(sb: Sandbox, found: Mismatch, timeout: int, seedsPerSize: int, deadline: real, clock: nat -> real, start: nat)
    ensures Midway(sb, found, timeout, seedsPerSize, deadline, clock, start, false, 0, start, 0)
  {
    assert Candidates(found.size)[0..] == Candidates(found.size);
  }

  /** A clock that is past the deadline stays past it. */
  lemma MidwayInTime(sb: Sandbox, found: Mismatch, timeout: int, seedsPerSize: int, deadline: real, clock: nat -> real,
                     start: nat, expired: bool, steps: nat, end: nat, i: nat)
    requires NonDecreasing(clock) && clock(end) <= deadline
    requires Midway(sb, found, timeout, seedsPerSize, deadline, clock, start, expired, steps, end, i)
    ensures !expired
  {}

  /** What trying the seeds of candidate i from reading `from` on may yield. */
  ghost predicate Tried(sb: Sandbox, found: Mismatch, timeout: int, seedsPerSize: int, deadline: real, clock: nat -> real,
                        from: nat, i: nat, candidate: Option<Mismatch>, expired: bool, tried: nat, end: nat)
    requires i < |Candidates(found.size)|
  {
    var base, size := found.seed * 7919, Candidates(found.size)[i];
    && from + tried <= end <= from + Max(0, seedsPerSize) && tried <= Max(0, seedsPerSize)
    && (tried > 0 ==> clock(from + tried - 1) <= deadline)
    && (if expired then candidate.None? && end > from && clock(end - 1) > deadline
        else candidate == SeedHit(sb, base, base + seedsPerSize, size, timeout))
    && (candidate.Some? ==> candidate.value.size == size && tried == candidate.value.seed - base + 1)
    && (candidate.None? && !expired ==> tried == Max(0, seedsPerSize))
  }

  lemma HitEnds(sb: Sandbox, found: Mismatch, timeout: int, seedsPerSize: int, deadline: real, clock: nat -> real, start: nat,
                steps: nat, from: nat, i: nat, candidate: Option<Mismatch>, tried: nat, end: nat)
    requires NonDecreasing(clock) && i < |Candidates(found.size)| && from >= 1
    requires Midway(sb, found, timeout, seedsPerSize, deadline, clock, start, false, steps, from - 1, i)
    requires Tried(sb, found, timeout, seedsPerSize, deadline, clock, from, i, candidate, false, tried, end) && candidate.Some?
    ensures candidate.value != found
    ensures ShrinkEnds(sb, found, timeout, seedsPerSize, deadline, clock, start, candidate.value, steps + tried, end)
  {
    var sizes := Candidates(found.size);
    CandidatesWithin(found.size);
    assert candidate.value.size in sizes && sizes[i..][0] == sizes[i];
    TotalGrows(Max(0, seedsPerSize) + 1, i + 1, |sizes|);
  }

  lemma MidwayOn(sb: Sandbox, found: Mismatch, timeout: int, seedsPerSize: int, deadline: real, clock: nat -> real, start: nat,
                 steps: nat, from: nat, i: nat, candidate: Option<Mismatch>, expired: bool, tried: nat, end: nat)
    requires NonDecreasing(clock) && i < |Candidates(found.size)| && from >= 1
    requires Midway(sb, found, timeout, seedsPerSize, deadline, clock, start, false, steps, from - 1, i)
    requires Tried(sb, found, timeout, seedsPerSize, deadline, clock, from, i, candidate, expired, tried, end) && candidate.None?
    ensures Midway(sb, found, timeout, seedsPerSize, deadline, clock, start, expired, steps + tried, end, i + 1)
  {
    var sizes := Candidates(found.size);
    assert sizes[i..][1..] == sizes[i + 1..] && sizes[i..][0] == sizes[i];
  }

  /** No hit: the last reading was too late, or every candidate was silent. */
  lemma MissEnds(sb: Sandbox, found: Mismatch, timeout: int, seedsPerSize: int, deadline: real, clock: nat -> real,
                 start: nat, expired: bool, steps: nat, end: nat, i: nat)
    requires Midway(sb, found, timeout, seedsPerSize, deadline, clock, start, expired, steps, end, i)
    requires expired || i == |Candidates(found.size)|
    ensures ShrinkEnds(sb, found, timeout, seedsPerSize, deadline, clock, start, found, steps, end)
  {
    TotalGrows(Max(0, seedsPerSize), i, |Candidates(found.size)|);
    TotalGrows(Max(0, seedsPerSize) + 1, i, |Candidates(found.size)|);
  }

  /** The reading before candidate i was too late. */
  lemma LateEnds(sb: Sandbox, found: Mismatch, timeout: int, seedsPerSize: int, deadline: real, clock: nat -> real,
                 start: nat, expired: bool, steps: nat, end: nat, i: nat)
    requires Midway(sb, found, timeout, seedsPerSize, deadline, clock, start, expired, steps, end, i)
    requires i < |Candidates(found.size)| && clock(end) > deadline
    ensures ShrinkEnds(sb, found, timeout, seedsPerSize, deadline, clock, start, found, steps, end + 1)
  {
    TotalGrows(Max(0, seedsPerSize), i, |Candidates(found.size)|);
    TotalGrows(Max(0, seedsPerSize) + 1, i + 1, |Candidates(found.size)|);
  }

  /** Search the candidates, smallest first. The break at the deadline leaves the inner loop only. */
  method Shrink(sb: Sandbox, found: Mismatch, timeout: int, seedsPerSize: int, deadline: real,
                clock: nat -> real, start: nat)
    returns (best: Mismatch, steps: nat, events: seq<Event>, end: nat)
    requires NonDecreasing(clock)
    ensures ShrinkEnds(sb, found, timeout, seedsPerSize, deadline, clock, start, best, steps, end)
    ensures events == if best == found then [] else [Shrunk(best.size, best.seed)]
  {
    best, steps, events, end := found, 0, [], start;
    var sizes := ShrinkCandidates(found.size);
    ghost var expired := false;
    var i := 0;
    MidwayAtStart(sb, found, timeout, seedsPerSize, deadline, clock, start);
    while i < |sizes|
      invariant 0 <= i <= |sizes|
      invariant Midway(sb, found, timeout, seedsPerSize, deadline, clock, start, expired, steps, end, i)
    {
      if clock(end) > deadline {
        LateEnds(sb, found, timeout, seedsPerSize, deadline, clock, start, expired, steps, end, i);
        end := end + 1;
        return;
      }
      MidwayInTime(sb, found, timeout, seedsPerSize, deadline, clock, start, expired, steps, end, i);
      var candidate, late, tried, after :=
        TrySeeds(sb, found.seed * 7919, sizes[i], timeout, seedsPerSize, deadline, clock, end + 1);
      if candidate.Some? {
        HitEnds(sb, found, timeout, seedsPerSize, deadline, clock, start, steps, end + 1, i, candidate, tried, after);
        return candidate.value, steps + tried, [Shrunk(sizes[i], candidate.value.seed)], after;
      }
      MidwayOn(sb, found, timeout, seedsPerSize, deadline, clock, start, steps, end + 1, i, candidate, late, tried, after);
      i, steps, end, expired := i + 1, steps + tried, after, late;
    }
    MissEnds(sb, found, timeout, seedsPerSize, deadline, clock, start, expired, steps, end, i);
  }

  function Total(seeds: nat, sizes: nat): nat {
    if sizes == 0 then 0 else Total(seeds, sizes - 1) + seeds
  }

  lemma {:induction false} TotalGrows(seeds: nat, i: nat, sizes: nat)
    requires i <= sizes
    ensures Total(seeds, i) <= Total(seeds, sizes)
    decreases sizes - i
  {
    if i < sizes { TotalGrows(seeds, i + 1, sizes); }
  }

  lemma {:induction false} TotalIsProduct(seeds: nat, sizes: nat)
    ensures Total(seeds, sizes) == seeds * sizes
  {
    if sizes > 0 {
      TotalIsProduct(seeds, sizes - 1);
      assert seeds * (sizes - 1) + seeds == seeds * sizes;
    }
  }

  // ------------------------------------------------------------ choice of size

  /** Log-uniform size before the clamp, as a function of the hash of the round: floating point, not modelled. */
  type RawSize = int -> int

  const HASH_MULTIPLIER := 2654435761
  const HASH_MODULUS := 10000

  function Fraction(i: int): int { i * HASH_MULTIPLIER % HASH_MODULUS }

  function SweepRounds(rounds: int): int { Max(1, rounds / 2) }

  /** The sizes swept one per round, without repeats, at the start of a run. */
  function Window(sizeMin: int, sizeMax: int, rounds: int): int {
    Min(sizeMax - sizeMin + 1, SweepRounds(rounds))
  }

  function PickSize(i: nat, sizeMin: int, sizeMax: int, rounds: nat, raw: RawSize): int {
    if sizeMax <= sizeMin then sizeMin
    else if i < SweepRounds(rounds) then sizeMin + i % Window(sizeMin, sizeMax, rounds)
    else Max(sizeMin, Min(raw(Fraction(i)), sizeMax))
  }

  // ---------------------------------------------------------------- round loop

  datatype Config = Config(
    rounds: nat, sizeMin: int, sizeMax: int, seedBase: int,
    budget: real, timeout: int, seedsPerSize: int)

  /** The outcome of round i. */
  function Round(sb: Sandbox, cfg: Config, raw: RawSize, i: nat): Option<Mismatch> {
    Probe(sb, cfg.seedBase + i, PickSize(i, cfg.sizeMin, cfg.sizeMax, cfg.rounds, raw), cfg.timeout)
  }

  ghost predicate QuietUntil(sb: Sandbox, cfg: Config, raw: RawSize, n: nat) {
    forall i: nat :: i < n ==> Round(sb, cfg, raw, i).None?
  }

  /**
   The clock leaves shrinking all the time it may take, after a find in the given round: none of the
   readings it may make comes later than half a minute after the find, or after the end of the budget
   if that is earlier.
   */
  ghost predicate Unhurried(cfg: Config, clock: nat -> real, rounds: nat, foundSize: int) {
    forall t: nat :: rounds + 1 < t <= rounds + 1 + Readings(foundSize, cfg.seedsPerSize) ==>
      clock(t) <= clock(rounds + 1) + 30.0 && clock(t) <= clock(0) + cfg.budget + 30.0
  }

  /**
   The final event tells the truth about the rounds; `first` is the mismatch before shrinking. The clock
   is read once before the first round and once at each, so reading number `rounds` begins the last
   round and the next one is made when it has found a mismatch, or too late to begin another.
   */
  ghost predicate Truthful(sb: Sandbox, cfg: Config, raw: RawSize, clock: nat -> real, last: Event) {
    match last
    case DoneFound(rounds, steps, minimal) =>
      && 1 <= rounds <= cfg.rounds
      && QuietUntil(sb, cfg, raw, rounds - 1)
      && clock(rounds) <= clock(0) + cfg.budget
      && var first := Round(sb, cfg, raw, rounds - 1);
      && first.Some?
      && Concluded(sb, cfg, clock, rounds, first.value, steps, minimal)
    case DoneEmpty(rounds, why) =>
      && 0 <= rounds <= cfg.rounds
      && QuietUntil(sb, cfg, raw, rounds)
      && (rounds >= 1 ==> clock(rounds) <= clock(0) + cfg.budget)
      && (why == Exhausted ==> rounds == cfg.rounds)
      && (why == OutOfTime ==> rounds < cfg.rounds && clock(rounds + 1) > clock(0) + cfg.budget)
    case _ => false
  }

  /** What shrinking may make of a mismatch: nothing, or the first disagreement among the candidates. */
  predicate Shrinks(sb: Sandbox, cfg: Config, first: Mismatch, minimal: Mismatch) {
    minimal == first || ShrinkGoal(sb, first, cfg.timeout, cfg.seedsPerSize) == Some(minimal)
  }

  /** Shrinking reaches its goal unless it is hurried; it counts its probes, and begins none when its time is up. */
  ghost predicate Concluded(sb: Sandbox, cfg: Config, clock: nat -> real, rounds: nat, first: Mismatch, steps: nat, minimal: Mismatch) {
    && Shrinks(sb, cfg, first, minimal)
    && (Unhurried(cfg, clock, rounds, first.size) ==>
          minimal == ShrinkGoal(sb, first, cfg.timeout, cfg.seedsPerSize).GetOr(first))
    && (if minimal == first then steps <= Probes(first.size, cfg.seedsPerSize)
        else StepsTo(first, cfg.seedsPerSize, minimal, steps))
    && (steps > 0 ==>
          clock(rounds + 1 + steps) <= clock(rounds + 1) + 30.0 && clock(rounds + 1 + steps) <= clock(0) + cfg.budget + 30.0)
  }

  /** Shrinking the mismatch of round i, which ends the run. */
  method Conclude(sb: Sandbox, cfg: Config, found: Mismatch, i: nat, clock: nat -> real)
    returns (events: seq<Event>, last: Event)
    requires NonDecreasing(clock)
    ensures forall e :: e in events ==> e.Disagreement? || e.Shrunk?
    ensures last.DoneFound? && events == [Disagreement(found.seed, found.size, found.reason)] +
              if last.minimal == found then [] else [Shrunk(last.minimal.size, last.minimal.seed)]
    ensures last.DoneFound? && last.rounds == i + 1
    ensures Concluded(sb, cfg, clock, i + 1, found, last.steps, last.minimal)
  {
    var deadline, now := clock(0) + cfg.budget, clock(i + 2);
    var limit := if deadline + 30.0 < now + 30.0 then deadline + 30.0 else now + 30.0;
    var minimal, steps, shrunk, end := Shrink(sb, found, cfg.timeout, cfg.seedsPerSize, limit, clock, i + 3);
    return [Disagreement(found.seed, found.size, found.reason)] + shrunk, DoneFound(i + 1, steps, minimal);
  }

  /** The log tells of every 25th round that was made, and of no other. */
  ghost predicate Narrates(cfg: Config, log: seq<Event>, rounds: int) {
    && (forall i: nat :: i < rounds && i % 25 == 0 ==> Progress(i, cfg.rounds) in log)
    && (forall e :: e in log && e.Progress? ==> e.rounds == cfg.rounds && 0 <= e.round < rounds && e.round % 25 == 0)
  }

  lemma NarratesNext(cfg: Config, log: seq<Event>, i: nat)
    requires Narrates(cfg, log, i)
    ensures Narrates(cfg, log + ProgressAt(i, cfg.rounds), i + 1)
  {
    var next := log + ProgressAt(i, cfg.rounds);
    forall k: nat | k < i + 1 && k % 25 == 0 ensures Progress(k, cfg.rounds) in next {
      if k < i { assert Progress(k, cfg.rounds) in log; }
    }
  }

  lemma NarratesStill(cfg: Config, log: seq<Event>, events: seq<Event>, rounds: int)
    requires Narrates(cfg, log, rounds) && forall e :: e in events ==> !e.Progress?
    ensures Narrates(cfg, log + events, rounds)
  {
    forall i: nat | i < rounds && i % 25 == 0 ensures Progress(i, cfg.rounds) in log + events {
      assert Progress(i, cfg.rounds) in log;
    }
  }

  /** Before round i: all rounds so far were begun in time and quiet, and the log tells of them. */
  ghost predicate SoFar(sb: Sandbox, cfg: Config, raw: RawSize, clock: nat -> real, log: seq<Event>, i: nat) {
    && QuietUntil(sb, cfg, raw, i) && (i > 0 ==> clock(i) <= clock(0) + cfg.budget)
    && (forall e :: e in log ==> e.Progress?) && Narrates(cfg, log, i)
  }

  lemma SoFarNext(sb: Sandbox, cfg: Config, raw: RawSize, clock: nat -> real, log: seq<Event>, i: nat)
    requires SoFar(sb, cfg, raw, clock, log, i) && Round(sb, cfg, raw, i).None? && clock(i + 1) <= clock(0) + cfg.budget
    ensures SoFar(sb, cfg, raw, clock, log + ProgressAt(i, cfg.rounds), i + 1)
  {
    NarratesNext(cfg, log, i);
  }

  /** A whole run: its log, and its one final event. */
  ghost predicate Ran(sb: Sandbox, cfg: Config, raw: RawSize, clock: nat -> real, log: seq<Event>, last: Event) {
    && Truthful(sb, cfg, raw, clock, last) && (forall e :: e in log ==> !e.IsDone())
    && !last.Stalled? && Narrates(cfg, log, last.rounds)
  }

  lemma FindEnds(sb: Sandbox, cfg: Config, raw: RawSize, clock: nat -> real, log: seq<Event>, i: nat, events: seq<Event>, last: Event)
    requires i < cfg.rounds && SoFar(sb, cfg, raw, clock, log, i) && clock(i + 1) <= clock(0) + cfg.budget
    requires Round(sb, cfg, raw, i).Some? && last.DoneFound? && last.rounds == i + 1
    requires Concluded(sb, cfg, clock, i + 1, Round(sb, cfg, raw, i).value, last.steps, last.minimal)
    requires forall e :: e in events ==> e.Disagreement? || e.Shrunk?
    ensures Ran(sb, cfg, raw, clock, log + ProgressAt(i, cfg.rounds) + events, last)
  {
    NarratesNext(cfg, log, i);
    NarratesStill(cfg, log + ProgressAt(i, cfg.rounds), events, i + 1);
  }

  lemma QuietEnds(sb: Sandbox, cfg: Config, raw: RawSize, clock: nat -> real, log: seq<Event>, i: nat, why: Stop)
    requires i <= cfg.rounds && SoFar(sb, cfg, raw, clock, log, i)
    requires if why == Exhausted then i == cfg.rounds else i < cfg.rounds && clock(i + 1) > clock(0) + cfg.budget
    ensures Ran(sb, cfg, raw, clock, log, DoneEmpty(i, why))
  {}

  /** Rounds in order until one disagrees, time runs out, or all are done: a log, then one final event. */
  method RoundLoop(sb: Sandbox, cfg: Config, raw: RawSize, clock: nat -> real)
    returns (log: seq<Event>, last: Event)
    requires NonDecreasing(clock)
    ensures Ran(sb, cfg, raw, clock, log, last)
  {
    log := [];
    var deadline := clock(0) + cfg.budget;
    for i := 0 to cfg.rounds
      invariant SoFar(sb, cfg, raw, clock, log, i)
    {
      if clock(i + 1) > deadline {
        QuietEnds(sb, cfg, raw, clock, log, i, OutOfTime);
        return log, DoneEmpty(i, OutOfTime);
      }
      var size := PickSize(i, cfg.sizeMin, cfg.sizeMax, cfg.rounds, raw);
      var found := Probe(sb, cfg.seedBase + i, size, cfg.timeout);
      assert found == Round(sb, cfg, raw, i);
      if found.Some? {
        var events;
        events, last := Conclude(sb, cfg, found.value, i, clock);
        FindEnds(sb, cfg, raw, clock, log, i, events, last);
        return log + ProgressAt(i, cfg.rounds) + events, last;
      }
      SoFarNext(sb, cfg, raw, clock, log, i);
      log := log + ProgressAt(i, cfg.rounds);
    }
    QuietEnds(sb, cfg, raw, clock, log, cfg.rounds, Exhausted);
    last := DoneEmpty(cfg.rounds, Exhausted);
  }

  /** Progress is reported every 25 rounds. */
  function ProgressAt(i: nat, rounds: nat): (events: seq<Event>)
    ensures forall e :: e in events ==> e.Progress?
  {
    if i % 25 == 0 then [Progress(i, rounds)] else []
  }
}
