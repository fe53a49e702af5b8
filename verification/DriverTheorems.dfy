/** What the search guarantees: genuineness, minimality, approximation and coverage. */
module DriverTheorems {
  import opened Prelude
  import opened Programs
  import opened Driver

  // ------------------------------------------------------------------- shrink

  lemma {:induction false} SeedHitIsFirst(sb: Sandbox, from: int, limit: int, size: int, timeout: int)
    ensures var hit := SeedHit(sb, from, limit, size, timeout);
            if hit.Some? then
              && from <= hit.value.seed < limit && hit.value.size == size
              && Probe(sb, hit.value.seed, size, timeout) == hit
              && forall seed :: from <= seed < hit.value.seed ==> Probe(sb, seed, size, timeout).None?
            else forall seed :: from <= seed < limit ==> Probe(sb, seed, size, timeout).None?
    decreases limit - from
  {
    if from < limit {
      ProbeIsGenuine(sb, from, size, timeout);
      SeedHitIsFirst(sb, from + 1, limit, size, timeout);
    }
  }

  /** None of the shrink seeds exposes a disagreement at this size. */
  ghost predicate Silent(sb: Sandbox, base: int, seeds: int, size: int, timeout: int) {
    forall seed :: base <= seed < base + seeds ==> Probe(sb, seed, size, timeout).None?
  }

  lemma {:induction false} FirstHitIsLeast(sb: Sandbox, base: int, seeds: int, sizes: seq<int>, timeout: int)
    ensures var hit := FirstHit(sb, base, seeds, sizes, timeout);
            if hit.Some? then
              && base <= hit.value.seed < base + seeds
              && Probe(sb, hit.value.seed, hit.value.size, timeout) == hit
              && (forall seed :: base <= seed < hit.value.seed ==> Probe(sb, seed, hit.value.size, timeout).None?)
              && exists i :: 0 <= i < |sizes| && sizes[i] == hit.value.size &&
                   forall j :: 0 <= j < i ==> Silent(sb, base, seeds, sizes[j], timeout)
            else forall j :: 0 <= j < |sizes| ==> Silent(sb, base, seeds, sizes[j], timeout)
  {
    if sizes != [] {
      var hit, rest := FirstHit(sb, base, seeds, sizes, timeout), sizes[1..];
      SeedHitIsFirst(sb, base, base + seeds, sizes[0], timeout);
      FirstHitIsLeast(sb, base, seeds, rest, timeout);
      assert forall j :: 0 < j < |sizes| ==> sizes[j] == rest[j - 1];
      if Silent(sb, base, seeds, sizes[0], timeout) && hit.Some? {
        var i :| 0 <= i < |rest| && rest[i] == hit.value.size &&
                 forall j :: 0 <= j < i ==> Silent(sb, base, seeds, rest[j], timeout);
        assert sizes[i + 1] == hit.value.size;
      }
    }
  }

  /**
   A shrunk mismatch is a real probe mismatch at a candidate size below the one found, and every
   smaller candidate size was tried with all its seeds and stayed silent, as did the earlier seeds at its own.
   */
  lemma ShrinkIsMinimal(sb: Sandbox, found: Mismatch, timeout: int, seeds: int, best: Mismatch)
    requires ShrinkGoal(sb, found, timeout, seeds) == Some(best)
    ensures Genuine(sb, best, timeout) && best.size in Candidates(found.size) && 1 <= best.size < found.size
    ensures found.seed * 7919 <= best.seed < found.seed * 7919 + seeds
    ensures forall seed :: found.seed * 7919 <= seed < best.seed ==> Probe(sb, seed, best.size, timeout).None?
    ensures forall s :: s in Candidates(found.size) && s < best.size ==>
              Silent(sb, found.seed * 7919, seeds, s, timeout)
  {
    var base, sizes := found.seed * 7919, Candidates(found.size);
    CandidatesWithin(found.size);
    FirstHitIsLeast(sb, base, seeds, sizes, timeout);
    var i :| 0 <= i < |sizes| && sizes[i] == best.size &&
             forall j :: 0 <= j < i ==> Silent(sb, base, seeds, sizes[j], timeout);
    ProbeIsGenuine(sb, best.seed, best.size, timeout);
    forall s | s in sizes && s < best.size ensures Silent(sb, base, seeds, s, timeout) {
      var j :| 0 <= j < |sizes| && sizes[j] == s;
      assert j < i;
    }
  }

  /** Among the sizes up to `top`, failure depends only on the size, and sets in at `m`. */
  ghost predicate FailsFrom(sb: Sandbox, timeout: int, m: int, top: int) {
    forall seed, size :: 1 <= size <= top ==> (Probe(sb, seed, size, timeout).Some? <==> size >= m)
  }

  lemma {:induction false} GeometricCovers(step: int, bound: int, m: int)
    requires 31 <= step < m <= bound && step < bound
    ensures var g := Geometric(step, bound);
            (exists j :: 0 <= j < |g| && m <= g[j] && 2 * g[j] <= 3 * (m - 1)) || 2 * bound <= 3 * (m - 1)
    decreases bound - step
  {
    var next := NextStep(step);
    assert 2 * next <= 3 * step;
    if next < bound {
      assert Geometric(next, bound)[0] == next && Geometric(step, bound)[1] == next;
      if next < m {
        GeometricCovers(next, bound, m);
        var g := Geometric(next, bound);
        if j :| 0 <= j < |g| && m <= g[j] && 2 * g[j] <= 3 * (m - 1) {
          assert Geometric(step, bound)[j + 1] == g[j];
        }
      }
    }
  }

  /** Some candidate, or the found size itself, is close above the threshold. */
  lemma CandidatesCover(foundSize: int, m: int) returns (c: int)
    requires 1 <= m <= foundSize
    ensures c in Candidates(foundSize) || c == foundSize
    ensures c >= m && (if m <= 31 then c == m else 2 * c <= 3 * (m - 1))
  {
    var d := |Range(1, Min(foundSize, 31))|;
    var g := Geometric(31, foundSize);
    c := foundSize;
    if m < foundSize {
      if m <= 30 {
        CandidatesDense(foundSize, m);
        c := m;
      } else if m == 31 {
        assert Candidates(foundSize)[d] == 31;
        c := m;
      } else {
        GeometricCovers(31, foundSize, m);
        if j :| 0 <= j < |g| && m <= g[j] && 2 * g[j] <= 3 * (m - 1) {
          assert Candidates(foundSize)[d + j] == g[j];
          c := g[j];
        }
      }
    }
  }

  lemma GoalReachesThreshold(sb: Sandbox, found: Mismatch, timeout: int, seeds: int, m: int, best: Mismatch)
    requires FailsFrom(sb, timeout, m, found.size) && ShrinkGoal(sb, found, timeout, seeds) == Some(best)
    ensures m <= best.size < found.size
  {
    ShrinkIsMinimal(sb, found, timeout, seeds, best);
    GenuineIsProbed(sb, best, timeout);
  }

  lemma GoalWithinCandidate(sb: Sandbox, found: Mismatch, timeout: int, seeds: int, m: int, c: int)
    requires FailsFrom(sb, timeout, m, found.size) && seeds >= 1 && c >= m && c in Candidates(found.size)
    ensures ShrinkGoal(sb, found, timeout, seeds).Some? && ShrinkGoal(sb, found, timeout, seeds).value.size <= c
  {
    var base, sizes := found.seed * 7919, Candidates(found.size);
    var goal := ShrinkGoal(sb, found, timeout, seeds);
    CandidatesWithin(found.size);
    assert !Silent(sb, base, seeds, c, timeout) by { assert Probe(sb, base, c, timeout).Some?; }
    var j :| 0 <= j < |sizes| && sizes[j] == c;
    if goal.Some? {
      ShrinkIsMinimal(sb, found, timeout, seeds, goal.value);
    } else {
      FirstHitIsLeast(sb, base, seeds, sizes, timeout);
    }
  }

  /**
   When failure sets in at a threshold m among the sizes up to the one found, shrinking that is not cut short returns exactly
   m up to 31, and at most 1.5 * (m - 1) beyond, whatever size the bug was found at.
   */
  lemma ShrinkApproximates(sb: Sandbox, found: Mismatch, timeout: int, seeds: int, m: int)
    requires seeds >= 1 && 1 <= m <= found.size && FailsFrom(sb, timeout, m, found.size)
    ensures var best := ShrinkGoal(sb, found, timeout, seeds).GetOr(found);
            m <= best.size <= found.size && (if m <= 31 then best.size == m else 2 * best.size <= 3 * (m - 1))
  {
    var goal := ShrinkGoal(sb, found, timeout, seeds);
    var c := CandidatesCover(found.size, m);
    if goal.Some? { GoalReachesThreshold(sb, found, timeout, seeds, m, goal.value); }
    if c in Candidates(found.size) { GoalWithinCandidate(sb, found, timeout, seeds, m, c); }
  }

  /** The largest size the driver can pick. */
  function Top(cfg: Config): int { Max(cfg.sizeMin, cfg.sizeMax) }

  /** The same end to end: what the driver reports is that close to the threshold, at whatever round it met the bug. */
  lemma DriverApproximates(sb: Sandbox, cfg: Config, raw: RawSize, clock: nat -> real, last: Event, m: int)
    requires Truthful(sb, cfg, raw, clock, last) && last.DoneFound?
    requires Unhurried(cfg, clock, last.rounds, Round(sb, cfg, raw, last.rounds - 1).value.size)
    requires cfg.seedsPerSize >= 1 && cfg.sizeMin >= 1 && m >= 1 && FailsFrom(sb, cfg.timeout, m, Top(cfg))
    ensures m <= last.minimal.size
    ensures if m <= 31 then last.minimal.size == m else 2 * last.minimal.size <= 3 * (m - 1)
  {
    var i := last.rounds - 1;
    var size := PickSize(i, cfg.sizeMin, cfg.sizeMax, cfg.rounds, raw);
    PickSizeInRange(i, cfg.sizeMin, cfg.sizeMax, cfg.rounds, raw);
    ProbeIsGenuine(sb, cfg.seedBase + i, size, cfg.timeout);
    var first := Round(sb, cfg, raw, i).value;
    assert FailsFrom(sb, cfg.timeout, m, first.size);
    ShrinkApproximates(sb, first, cfg.timeout, cfg.seedsPerSize, m);
  }

  // ----------------------------------------------------------- choice of size

  /** Sizes stay in the range asked for; an empty range yields its lower end. */
  lemma PickSizeInRange(i: nat, sizeMin: int, sizeMax: int, rounds: nat, raw: RawSize)
    ensures sizeMin <= PickSize(i, sizeMin, sizeMax, rounds, raw) <= Max(sizeMin, sizeMax)
  {
    if sizeMax > sizeMin {
      var w := Window(sizeMin, sizeMax, rounds);
      assert 1 <= w <= sizeMax - sizeMin + 1;
      assert 0 <= i % w < w;
    }
  }

  /** In the first half of the rounds the sizes are swept one per round, starting over at the end of the range. */
  lemma SweepGoesRound(i: nat, sizeMin: int, sizeMax: int, rounds: nat, raw: RawSize)
    requires sizeMin <= sizeMax && i < (if rounds < 2 then 1 else rounds / 2)
    ensures PickSize(i, sizeMin, sizeMax, rounds, raw) == sizeMin + i % (sizeMax - sizeMin + 1)
  {
    var span, half := sizeMax - sizeMin + 1, SweepRounds(rounds);
    if half < span { SmallMod(i, half); SmallMod(i, span); }
  }

  /** So the first of them meet consecutive sizes, each in its own round. */
  lemma SweepIsDense(i: nat, sizeMin: int, sizeMax: int, rounds: nat, raw: RawSize)
    requires sizeMin + i <= sizeMax && i < (if rounds < 2 then 1 else rounds / 2)
    ensures PickSize(i, sizeMin, sizeMax, rounds, raw) == sizeMin + i
  {
    SweepGoesRound(i, sizeMin, sizeMax, rounds, raw);
    SmallMod(i, sizeMax - sizeMin + 1);
  }

  lemma SmallMod(i: nat, w: nat)
    requires i < w
    ensures i % w == i
  {}

  /** Later rounds take the raw draw for the hash of their number, moved to the nearer end if it is outside the range. */
  lemma DrawIsClamped(i: nat, sizeMin: int, sizeMax: int, rounds: nat, raw: RawSize)
    requires sizeMin < sizeMax && i >= (if rounds < 2 then 1 else rounds / 2)
    ensures var draw, size := raw(i % 10000 * 5761 % 10000), PickSize(i, sizeMin, sizeMax, rounds, raw);
            && (sizeMin <= draw <= sizeMax ==> size == draw)
            && (draw < sizeMin ==> size == sizeMin) && (draw > sizeMax ==> size == sizeMax)
  {
    FractionReduced(i);
  }

  /**
   A bug that the round sweeping its size meets is reported no later than that round, unless the budget
   ran out before the round could begin.
   */
  lemma SweepIsComplete(sb: Sandbox, cfg: Config, raw: RawSize, clock: nat -> real, last: Event, i: nat)
    requires Truthful(sb, cfg, raw, clock, last) && cfg.rounds >= 1
    requires cfg.sizeMin + i <= cfg.sizeMax && i < (if cfg.rounds < 2 then 1 else cfg.rounds / 2)
    requires Probe(sb, cfg.seedBase + i, cfg.sizeMin + i, cfg.timeout).Some?
    ensures if last.DoneFound? then last.rounds <= i + 1
            else last.why == OutOfTime && last.rounds <= i && clock(last.rounds + 1) > clock(0) + cfg.budget
  {
    SweepIsDense(i, cfg.sizeMin, cfg.sizeMax, cfg.rounds, raw);
    assert Round(sb, cfg, raw, i).Some?;
  }

  /** Two rounds draw the same fraction exactly when they are a multiple of 10,000 rounds apart. */
  lemma FractionPeriod(i: nat, j: nat)
    ensures Fraction(i) == Fraction(j) <==> i % HASH_MODULUS == j % HASH_MODULUS
  {
    FractionReduced(i);
    FractionReduced(j);
    FractionInverts(i);
    FractionInverts(j);
  }

  lemma FractionReduced(i: nat)
    ensures Fraction(i) == i % HASH_MODULUS * 5761 % HASH_MODULUS
  {
    var q, r := i / HASH_MODULUS, i % HASH_MODULUS;
    assert i * HASH_MULTIPLIER == r * 5761 + HASH_MODULUS * (q * HASH_MULTIPLIER + r * 265443);
    ModOfMultiple(r * 5761, q * HASH_MULTIPLIER + r * 265443);
  }

  lemma ModOfMultiple(a: nat, k: nat)
    ensures (a + HASH_MODULUS * k) % HASH_MODULUS == a % HASH_MODULUS
  {}

  /** 5761 has the inverse 5841 modulo 10,000. */
  lemma FractionInverts(i: nat)
    ensures Fraction(i) * 5841 % HASH_MODULUS == i % HASH_MODULUS
  {
    FractionReduced(i);
    var r := i % HASH_MODULUS;
    var q := r * 5761 / HASH_MODULUS;
    assert Fraction(i) == r * 5761 - HASH_MODULUS * q;
    calc {
      Fraction(i) * 5841 + HASH_MODULUS * (q * 5841);
      (Fraction(i) + HASH_MODULUS * q) * 5841;
      (r * 5761) * 5841;
      r + HASH_MODULUS * (r * 3365);
    }
    ModOfMultiple(Fraction(i) * 5841, q * 5841);
    ModOfMultiple(r, r * 3365);
  }
}
