/** Lease exclusivity and what it implies: terminal states are absorbing. */
module QueueSafety {
  import opened Prelude
  import opened States
  import opened Database
  import opened Queue

  /** Heartbeats land within two thirds of the lease after they are due, and nothing fails after a final write. */
  predicate Sound(env: Env) {
    env.timely && env.maxDelay <= 2.0 * LEASE_SECONDS / 3.0 && !env.lateFaults && env.claimLease >= LEASE_SECONDS
  }

  /** The row of an executing worker is open, under a lease that outlasts its last heartbeat by a full period. */
  predicate Covered(s: System, w: Worker) {
    w.Executing() ==>
      && w.id in s.rows && !Terminal(s.rows[w.id].state)
      && w.beat <= s.now <= w.beat + LEASE_SECONDS
      && s.rows[w.id].leaseExpiresAt.Some?
      && s.rows[w.id].leaseExpiresAt.value >= w.beat + LEASE_SECONDS
  }

  predicate Leased(s: System) {
    forall w :: w in s.workers ==> Covered(s, s.workers[w])
  }

  lemma CoveredActor(env: Env, s: System, step: Step)
    requires Sound(env) && Enabled(env, s, step) && Actor(step).Some?
    requires Covered(s, s.Pc(Actor(step).value))
    ensures Covered(Apply(env, s, step), Apply(env, s, step).Pc(Actor(step).value))
  {}

  /** The others are not disturbed: nothing but the holder lowers a running lease below the next heartbeat. */
  lemma CoveredOther(env: Env, s: System, step: Step, w: WorkerId)
    requires Sound(env) && Enabled(env, s, step) && Actor(step) != Some(w)
    requires w in s.workers && Covered(s, s.Pc(w))
    requires Actor(step).Some? ==>
      Covered(s, s.Pc(Actor(step).value)) && Apart(s.Pc(w), s.Pc(Actor(step).value))
    ensures Covered(Apply(env, s, step), Apply(env, s, step).Pc(w))
  {}

  lemma ApartKept(env: Env, s: System, step: Step, v: WorkerId, w: WorkerId)
    requires Sound(env) && Enabled(env, s, step) && v != w
    requires Covered(s, s.Pc(v)) && Covered(s, s.Pc(w)) && Apart(s.Pc(v), s.Pc(w))
    ensures Apart(Apply(env, s, step).Pc(v), Apply(env, s, step).Pc(w))
  {}

  lemma LeaseKept(env: Env, s: System, step: Step)
    requires Sound(env) && Enabled(env, s, step) && Leased(s) && Exclusive(s)
    ensures Leased(Apply(env, s, step)) && Exclusive(Apply(env, s, step))
  {
    var t := Apply(env, s, step);
    forall w | w in t.workers ensures Covered(t, t.workers[w]) {
      if Actor(step) == Some(w) { CoveredActor(env, s, step); } else { CoveredOther(env, s, step, w); }
    }
    forall v, w | v in t.workers && w in t.workers && v != w ensures Apart(t.workers[v], t.workers[w]) {
      ApartKept(env, s, step, v, w);
    }
  }

  /** On every run no row is executed by two workers, and each executing worker's lease covers it. */
  lemma {:induction false} LeaseAlways(env: Env, run: Run)
    requires Sound(env) && Legal(env, run)
    ensures Leased(At(env, run)) && Exclusive(At(env, run))
  {
    if run.Then? {
      LeaseAlways(env, run.before);
      LeaseKept(env, At(env, run.before), run.step);
    }
  }

  /** A row is never claimed while another live worker is still executing it. */
  lemma ClaimIsExclusive(env: Env, run: Run, w: WorkerId, id: Id, other: WorkerId)
    requires Sound(env) && Legal(env, Then(run, Claim(w, id)))
    requires other in At(env, run).workers && At(env, run).workers[other].Executing()
    ensures At(env, run).workers[other].id != id
  {
    LeaseAlways(env, run);
    assert Covered(At(env, run), At(env, run).workers[other]);
  }

  // ---------------------------------------------------------- terminal states

  /** One step leaves a terminal row in its state, except that a resubmission may requeue a degraded one. */
  lemma TerminalStepKept(env: Env, run: Run, step: Step, id: Id)
    requires Sound(env) && Legal(env, Then(run, step))
    requires id in At(env, run).rows && Terminal(At(env, run).rows[id].state)
    ensures id in At(env, Then(run, step)).rows
    ensures var state := At(env, run).rows[id].state;
            var next := At(env, Then(run, step)).rows[id].state;
            next == state || (state == Degraded && step.TryRequeue? && next == Submitted)
  {
    LeaseAlways(env, run);
    var s := At(env, run);
    assert forall w :: w in s.workers ==> Covered(s, s.workers[w]);
    TerminalKept(env, s, step, id);
  }

  lemma TerminalKept(env: Env, s: System, step: Step, id: Id)
    requires Leased(s) && !env.lateFaults && Enabled(env, s, step)
    requires id in s.rows && Terminal(s.rows[id].state)
    ensures id in Apply(env, s, step).rows
    ensures var next := Apply(env, s, step).rows[id];
            next.state == s.rows[id].state || (s.rows[id].state == Degraded && step.TryRequeue? && next.state == Submitted)
  {
    if step.Work? { assert Covered(s, s.workers[step.w]); }
  }

  /** Done and Failed are permanent: whatever happens afterwards, the row keeps that state. */
  lemma {:induction false} DoneAndFailedArePermanent(env: Env, run: Run, steps: seq<Step>, id: Id)
    requires Sound(env) && Legal(env, Extend(run, steps))
    requires id in At(env, run).rows && At(env, run).rows[id].state in {Done, Failed}
    ensures Legal(env, run) && id in At(env, Extend(run, steps)).rows
    ensures At(env, Extend(run, steps)).rows[id].state == At(env, run).rows[id].state
  {
    if steps != [] {
      var init := steps[..|steps| - 1];
      DoneAndFailedArePermanent(env, run, init, id);
      TerminalStepKept(env, Extend(run, init), steps[|steps| - 1], id);
    }
  }
}
