/** What halving the size knob achieves. */
module Calibration {
  import opened Prelude
  import opened Programs
  import opened Driver
  import opened Stages

  /** The brute force sustains exactly the sizes up to a limit, and is too slow above it. */
  ghost predicate SlowAbove(sb: Sandbox, limit: int) {
    forall size :: size >= 1 ==> SizeProbe(sb, size) == if size <= limit then Passed else TooSlow
  }

  lemma DivisionIsUnique(a: nat, d: nat, q: nat, r: nat)
    requires d > 0 && a == d * q + r && r < d
    ensures a / d == q
  {
    var q', r' := a / d, a % d;
    assert a == d * q' + r';
    if q' < q { MulGap(d, q', q); }
    if q < q' { MulGap(d, q, q'); }
  }

  lemma MulGap(d: nat, p: nat, q: nat)
    requires p < q
    ensures d * p + d <= d * q
  {
    assert d * q == d * p + d * (q - p);
    assert d * (q - p) == d + d * (q - p - 1);
  }

  lemma HalvedFirst(s: nat, p: nat)
    requires p > 0
    ensures s / 2 / p == s / (2 * p)
  {
    var q, b := s / 2, s % 2;
    var t, u := q / p, q % p;
    assert q == p * t + u;
    assert s == 2 * q + b;
    assert s == (2 * p) * t + (2 * u + b);
    DivisionIsUnique(s, 2 * p, t, 2 * u + b);
  }

  lemma {:induction false} PowPositive(k: nat)
    ensures Pow(2, k) > 0
  {
    if k > 0 { PowPositive(k - 1); }
  }

  /** After k halvings: the first of size, size/2, size/4, ... that is at most the limit. */
  ghost predicate Lands(size: nat, limit: int, k: nat, fit: int) {
    PowPositive(k);
    && fit == size / Pow(2, k) <= limit
    && (k > 0 ==> (PowPositive(k - 1); size / Pow(2, k - 1) > limit && limit <= 2 * fit))
  }

  /**
   Calibration from `size` with `steps` probes succeeds exactly when steps - 1 halvings reach the limit.
   It then stops at the first size within the limit, which is at least half of it if it halved at all.
   */
  lemma {:induction false} CalibrationFitsWithinTwo(sb: Sandbox, size: nat, limit: int, steps: nat)
    requires size >= 1 && limit >= 1 && steps >= 1 && SlowAbove(sb, limit)
    ensures Pow(2, steps - 1) > 0
    ensures var (gate, fit) := Calibrated(sb, size, steps);
            && (gate.Passed? <==> size / Pow(2, steps - 1) <= limit)
            && (gate.Passed? ==> exists k :: 0 <= k < steps && Lands(size, limit, k, fit))
    decreases steps
  {
    PowPositive(steps - 1);
    var (gate, fit) := Calibrated(sb, size, steps);
    if size <= limit {
      assert Lands(size, limit, 0, fit);
      DivisionShrinks(size, Pow(2, steps - 1));
    } else if steps >= 2 {
      var half := size / 2;
      CalibrationFitsWithinTwo(sb, half, limit, steps - 1);
      PowPositive(steps - 2);
      HalvedFirst(size, Pow(2, steps - 2));
      if gate.Passed? {
        var k :| 0 <= k < steps - 1 && Lands(half, limit, k, fit);
        LandsAfterHalving(size, limit, k, fit);
      }
    }
  }

  lemma DivisionShrinks(a: nat, d: nat)
    requires d > 0
    ensures a / d <= a
  {
    var q := a / d;
    assert a == d * q + a % d;
    MulMonotone(q, 1, d);
  }

  lemma LandsAfterHalving(size: nat, limit: int, k: nat, fit: int)
    requires size > limit >= 1 && Lands(size / 2, limit, k, fit)
    ensures Lands(size, limit, k + 1, fit)
  {
    PowPositive(k);
    HalvedFirst(size, Pow(2, k));
    if k > 0 {
      PowPositive(k - 1);
      HalvedFirst(size, Pow(2, k - 1));
    }
  }

  /**
   Ten probes succeed from every size below 1024, and from a larger one exactly when nine halvings
   reach the limit: the claim that halving reaches 1 from any starting point does not hold.
   */
  lemma TenProbesReach(sb: Sandbox, size: nat, limit: int)
    requires size >= 1 && limit >= 1 && SlowAbove(sb, limit)
    ensures var gate := Calibrated(sb, size, MAX_CALIBRATION_STEPS).0;
            (gate.Passed? <==> size / 512 <= limit) && (size < 1024 ==> gate.Passed?)
  {
    CalibrationFitsWithinTwo(sb, size, limit, MAX_CALIBRATION_STEPS);
    assert Pow(2, 9) == 512;
  }
}
