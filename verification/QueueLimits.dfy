/** Runs that show each assumption of the safety theorems is needed, and that the budget bound is reached. */
module QueueLimits {
  import opened Prelude
  import opened States
  import opened Database
  import opened Queue
  import opened QueueBudget
  import opened QueueSafety

  ghost predicate AlwaysExclusive(env: Env) {
    forall run :: Legal(env, run) ==> Exclusive(At(env, run))
  }

  /** Worker 1 executes row 0, claimed for the first time at time zero. */
  predicate Working(s: System, left: nat, calls: nat, tokens: nat) {
    && s.now == 0.0 && s.Holds(1) && s.Pc(1) == Running(0, 1, 0.0, left) && s.workers.Keys == {1}
    && s.rows.Keys == {0} && s.clients.Keys == {0}
    && s.rows[0].key == "key" && s.rows[0].state == Submitted && s.rows[0].attempts == 1
    && s.rows[0].llmCalls == calls && s.rows[0].tokensUsed == tokens
  }

  lemma OneMoreStep(env: Env, run: Run, s: System, step: Step) returns (next: Run)
    requires Legal(env, run) && At(env, run) == s && Enabled(env, s, step)
    ensures Legal(env, next) && At(env, next) == Apply(env, s, step)
  {
    next := Then(run, step);
  }

  /** One fresh row and nobody at work. */
  predicate Queued(s: System) {
    && s.now == 0.0 && s.rows == map[0 := Fresh("key", 0.0)] && s.workers == map[]
    && s.ledgers == map[0 := NewLedger(0)] && s.clients.Keys == {0}
  }

  lemma QueuedRun(env: Env) returns (run: Run)
    ensures Legal(env, run) && Queued(At(env, run))
  {
    var arrived := OneMoreStep(env, Start, Initial, Arrive(0, "key"));
    run := OneMoreStep(env, arrived, Apply(env, Initial, Arrive(0, "key")), TryInsert(0, 0));
  }

  lemma FirstRun(env: Env) returns (run: Run)
    ensures Legal(env, run) && Working(At(env, run), 0, 0, 0)
  {
    var queued := QueuedRun(env);
    var claimed := Then(queued, Claim(1, 0));
    assert Legal(env, claimed) && At(env, claimed).Pc(1) == Handling(0, 1, 0.0);
    run := Then(claimed, Work(1, Begin));
    assert Legal(env, run);
  }

  /** Worker 1 renewed its lease when the first heartbeat was due. */
  predicate RenewedOnce(s: System) {
    && s.now == BEAT_PERIOD && s.Holds(1) && s.Pc(1) == Running(0, 1, BEAT_PERIOD, 0) && s.workers.Keys == {1}
    && s.rows.Keys == {0} && !Terminal(s.rows[0].state) && s.rows[0].attempts == 1
    && s.rows[0].leaseExpiresAt == Some(BEAT_PERIOD + LEASE_SECONDS)
  }

  lemma FirstRenewal(env: Env) returns (run: Run)
    requires env.timely ==> env.maxDelay >= 0.0
    ensures Legal(env, run) && RenewedOnce(At(env, run))
  {
    var first := FirstRun(env);
    var due := Then(first, Tick(BEAT_PERIOD));
    assert Legal(env, due);
    run := Then(due, Work(1, Renew));
    assert Legal(env, run);
  }

  /** The lease of the row that worker 1 executes has run out. */
  predicate Lapsed(s: System) {
    && s.Holds(1) && s.Pc(1).Running? && s.Pc(1).id == 0 && s.workers.Keys == {1}
    && s.rows.Keys == {0} && Claimable(s.rows[0], s.now) && s.rows[0].attempts == 1
  }

  lemma LapsedLease(env: Env) returns (run: Run)
    requires !env.timely || env.maxDelay > 2.0 * LEASE_SECONDS / 3.0
    ensures Legal(env, run) && Lapsed(At(env, run))
  {
    var over := if env.timely then env.maxDelay - 2.0 * LEASE_SECONDS / 3.0 else 1.0;
    var renewed := FirstRenewal(env);
    run := Then(renewed, Tick(LEASE_SECONDS + over));
    assert Legal(env, run) && At(env, run).rows == At(env, renewed).rows && At(env, run).workers == At(env, renewed).workers;
  }

  /** A heartbeat may land later than two thirds of the lease after it is due: the row is claimed twice. */
  lemma LateHeartbeatBreaksExclusivity(env: Env) returns (run: Run)
    requires !env.timely || env.maxDelay > 2.0 * LEASE_SECONDS / 3.0
    ensures Legal(env, run) && !Exclusive(At(env, run))
  {
    var lapsed := LapsedLease(env);
    run := Then(lapsed, Claim(2, 0));
    assert Legal(env, run);
    var s := At(env, run);
    assert s.workers[1].id == 0 && s.workers[2].id == 0 && !Apart(s.workers[1], s.workers[2]);
  }

  /** Worker 1 is still at work on a row that worker 2 has claimed. */
  predicate Zombie(s: System) {
    s.Holds(1) && s.Pc(1).Running? && s.Pc(1).id == 0 && s.Holds(2) && s.Pc(2).id == 0
  }

  /** A zombie then fails the row that the other worker has finished. */
  lemma LateHeartbeatOverwritesDone(env: Env) returns (run: Run, step: Step)
    requires !env.timely || env.maxDelay > 2.0 * LEASE_SECONDS / 3.0
    ensures Legal(env, Then(run, step)) && 0 in At(env, run).rows && At(env, run).rows[0].state == Done
    ensures 0 in At(env, Then(run, step)).rows && At(env, Then(run, step)).rows[0].state == Failed
  {
    var lapsed := LapsedLease(env);
    var claimed := Then(lapsed, Claim(2, 0));
    assert Legal(env, claimed) && Zombie(At(env, claimed)) && At(env, claimed).Pc(2) == Handling(0, 2, At(env, lapsed).now);
    var begun := Then(claimed, Work(2, Begin));
    assert Legal(env, begun) && Zombie(At(env, begun)) && At(env, begun).Pc(2).Running?;
    run, step := ZombieFails(env, begun);
  }

  lemma ZombieFails(env: Env, begun: Run) returns (run: Run, step: Step)
    requires Legal(env, begun) && Zombie(At(env, begun)) && At(env, begun).Pc(2).Running?
    ensures Legal(env, Then(run, step)) && 0 in At(env, run).rows && At(env, run).rows[0].state == Done
    ensures 0 in At(env, Then(run, step)).rows && At(env, Then(run, step)).rows[0].state == Failed
  {
    run := Then(begun, Work(2, Finish(Done, None, "", "")));
    assert Legal(env, run) && Zombie(At(env, run));
    step := Work(1, Finish(Failed, None, "", ""));
  }

  /** Worker 1 has written Degraded but not returned yet, and a resubmission is about to look the row up. */
  predicate Finishing(s: System, state: State, client: Client) {
    && s.now == 0.0 && s.Pc(1) == Closing(0, 1) && s.Holds(1) && s.workers.Keys == {1}
    && s.rows.Keys == {0} && s.rows[0].state == state && s.rows[0].leaseExpiresAt == None
    && s.rows[0].key == "key" && s.rows[0].attempts == 1
    && 1 in s.clients && s.clients[1] == client
  }

  lemma DegradedAndAsked(env: Env) returns (run: Run)
    ensures Legal(env, run) && Finishing(At(env, run), Degraded, Looking("key"))
  {
    var first := FirstRun(env);
    var degraded := Then(first, Work(1, Finish(Degraded, None, "", "")));
    assert Legal(env, degraded) && At(env, degraded).Pc(1) == Closing(0, 1) && At(env, degraded).clients.Keys == {0};
    var arrived := Then(degraded, Arrive(1, "key"));
    assert Legal(env, arrived) && Finishing(At(env, arrived), Degraded, Asking("key"));
    assert KeyTaken(At(env, arrived).rows, "key");
    run := Then(arrived, TryInsert(1, 0));
    assert Legal(env, run);
  }

  lemma RequeuedMeanwhile(env: Env) returns (run: Run)
    ensures Legal(env, run) && Finishing(At(env, run), Submitted, Told("key", 0, true))
  {
    var looking := DegradedAndAsked(env);
    var retrying := Then(looking, Look(1, 0));
    assert Legal(env, retrying) && Finishing(At(env, retrying), Degraded, Retrying("key", 0));
    run := Then(retrying, TryRequeue(1));
    assert Legal(env, run);
  }

  /** Worker 2 executes the requeued row while worker 1 has not returned. */
  predicate Superseded(s: System) {
    && s.now == 0.0 && s.Pc(1) == Closing(0, 1) && s.Holds(1) && s.Pc(2) == Running(0, 2, 0.0, 0) && s.Holds(2)
    && s.workers.Keys == {1, 2} && s.rows.Keys == {0}
  }

  lemma SupersededMeanwhile(env: Env) returns (run: Run)
    ensures Legal(env, run) && Superseded(At(env, run))
  {
    var requeued := RequeuedMeanwhile(env);
    var claimed := Then(requeued, Claim(2, 0));
    assert Legal(env, claimed) && At(env, claimed).Pc(2) == Handling(0, 2, 0.0) && At(env, claimed).Pc(1) == Closing(0, 1);
    run := Then(claimed, Work(2, Begin));
    assert Legal(env, run);
  }

  /**
   An exception after the final write overwrites a row that was requeued and claimed meanwhile; the new
   holder's next state write then leaves it open without a lease, and a third worker takes it.
   */
  lemma LateFaultBreaksExclusivity(env: Env) returns (run: Run)
    requires env.lateFaults
    ensures Legal(env, run) && !Exclusive(At(env, run))
  {
    var superseded := SupersededMeanwhile(env);
    var faulted := Then(superseded, Work(1, LateFault("teardown")));
    assert Legal(env, faulted) && Superseded(At(env, faulted)) && At(env, faulted).rows[0].leaseExpiresAt == None;
    run := Revive(env, faulted);
  }

  lemma Revive(env: Env, faulted: Run) returns (run: Run)
    requires Legal(env, faulted) && Superseded(At(env, faulted)) && At(env, faulted).rows[0].leaseExpiresAt == None
    ensures Legal(env, run) && !Exclusive(At(env, run))
  {
    var revived := Then(faulted, Work(2, Write(Stressing)));
    assert Legal(env, revived) && Superseded(At(env, revived)) && Claimable(At(env, revived).rows[0], 0.0);
    run := Then(revived, Claim(3, 0));
    assert Legal(env, run);
    var s := At(env, run);
    assert !Apart(s.workers[2], s.workers[3]);
  }

  /** Exclusivity on every run holds exactly under the assumptions of the safety theorem. */
  lemma ExclusiveIffSound(env: Env)
    requires env.claimLease >= LEASE_SECONDS
    ensures AlwaysExclusive(env) <==>
              env.timely && env.maxDelay <= 2.0 * LEASE_SECONDS / 3.0 && !env.lateFaults
  {
    if Sound(env) {
      forall run | Legal(env, run) ensures Exclusive(At(env, run)) { LeaseAlways(env, run); }
    } else if env.lateFaults {
      var run := LateFaultBreaksExclusivity(env);
    } else {
      var run := LateHeartbeatBreaksExclusivity(env);
    }
  }

  /** The lease that goes with a claim is never shorter than the renewed one. */
  lemma ClaimLeaseIsLongEnough(maxWallSeconds: nat)
    ensures ClaimLease(maxWallSeconds) >= LEASE_SECONDS
    ensures ClaimLease(maxWallSeconds) == if maxWallSeconds < 242 then 120.0 else (maxWallSeconds / 2) as real
  {}

  /** And a late fault turns a Done row into a Failed one. */
  lemma LateFaultOverwritesDone(env: Env) returns (run: Run)
    requires env.lateFaults
    ensures Legal(env, Then(run, Work(1, LateFault("teardown"))))
    ensures 0 in At(env, run).rows && At(env, run).rows[0].state == Done
    ensures var t := At(env, Then(run, Work(1, LateFault("teardown"))));
            0 in t.rows && t.rows[0].state == Failed && 0 in t.ledgers && t.ledgers[0].closed[1] >= 2
  {
    var first := FirstRun(env);
    run := Then(first, Work(1, Finish(Done, None, "", "")));
    assert Legal(env, run) && At(env, run).Pc(1) == Closing(0, 1) && At(env, run).ledgers[0].closed[1] >= 1;
  }

  /** The row keeps its state in the continuation of the run by these steps. */
  predicate Keeps(env: Env, run: Run, steps: seq<Step>, id: Id) {
    id in At(env, run).rows && id in At(env, Extend(run, steps)).rows
    && At(env, Extend(run, steps)).rows[id].state == At(env, run).rows[id].state
  }

  /** On every run and in every continuation a row that is done or failed stays so. */
  ghost predicate AlwaysPermanent(env: Env) {
    forall run, steps, id ::
      Legal(env, Extend(run, steps)) && id in At(env, run).rows && At(env, run).rows[id].state in {Done, Failed} ==>
        Keeps(env, run, steps, id)
  }

  lemma BrokenByOneStep(env: Env, run: Run, step: Step)
    requires Legal(env, Then(run, step)) && 0 in At(env, run).rows && At(env, run).rows[0].state == Done
    requires 0 in At(env, Then(run, step)).rows && At(env, Then(run, step)).rows[0].state == Failed
    ensures !AlwaysPermanent(env)
  {
    assert Extend(run, []) == run && [step][..0] == [];
    assert Extend(run, [step]) == Then(run, step);
    assert !Keeps(env, run, [step], 0);
  }

  /** Done and Failed are permanent on every run exactly under the assumptions that make execution exclusive. */
  lemma PermanentIffSound(env: Env)
    requires env.claimLease >= LEASE_SECONDS
    ensures AlwaysPermanent(env) <==>
              env.timely && env.maxDelay <= 2.0 * LEASE_SECONDS / 3.0 && !env.lateFaults
  {
    if Sound(env) {
      forall run, steps, id |
        Legal(env, Extend(run, steps)) && id in At(env, run).rows && At(env, run).rows[id].state in {Done, Failed}
        ensures Keeps(env, run, steps, id)
      {
        DoneAndFailedArePermanent(env, run, steps, id);
      }
    } else if env.lateFaults {
      var run := LateFaultOverwritesDone(env);
      BrokenByOneStep(env, run, Work(1, LateFault("teardown")));
    } else {
      var run, step := LateHeartbeatOverwritesDone(env);
      BrokenByOneStep(env, run, step);
    }
  }

  // ------------------------------------------------------------------- budget

  lemma BeginOne(env: Env, run: Run, calls: nat, tokens: nat) returns (next: Run)
    requires Legal(env, run) && Working(At(env, run), 0, calls, tokens) && calls < env.maxCalls && tokens <= env.maxTokens
    ensures Legal(env, next) && Working(At(env, next), env.retries, calls, tokens)
  {
    next := Then(run, Work(1, BeginCall));
    assert Legal(env, next);
  }

  lemma ChargeOne(env: Env, run: Run, left: nat, calls: nat, tokens: nat, spent: nat) returns (next: Run)
    requires Legal(env, run) && Working(At(env, run), left, calls, tokens) && left > 0 && spent <= env.maxResponse
    ensures Legal(env, next) && Working(At(env, next), left - 1, calls + 1, tokens + spent)
  {
    next := Then(run, Work(1, Charge(spent)));
    assert Legal(env, next);
  }

  lemma OneCall(env: Env, run: Run, calls: nat, tokens: nat, spent: nat) returns (next: Run)
    requires Legal(env, run) && Working(At(env, run), 0, calls, tokens) && calls < env.maxCalls && env.retries >= 1
    requires tokens <= env.maxTokens && spent <= env.maxResponse
    ensures Legal(env, next) && Working(At(env, next), 0, calls + 1, tokens + spent)
  {
    var begun := BeginOne(env, run, calls, tokens);
    var charged := ChargeOne(env, begun, env.retries, calls, tokens, spent);
    next := Then(charged, Work(1, EndCall));
    assert Legal(env, next);
  }

  /** Calls that bring `spent` tokens each, up to `n` of them or until they pass the cap. */
  lemma {:induction false} SeveralCalls(env: Env, n: nat, spent: nat) returns (run: Run, calls: nat)
    requires n <= env.maxCalls && env.retries >= 1 && spent <= env.maxResponse
    ensures Legal(env, run) && calls <= n && Working(At(env, run), 0, calls, calls * spent)
    ensures calls < n ==> calls * spent > env.maxTokens
    decreases n
  {
    if n == 0 {
      run := FirstRun(env);
      calls := 0;
    } else {
      run, calls := SeveralCalls(env, n - 1, spent);
      if calls * spent <= env.maxTokens {
        OneCallMore(calls, spent);
        run := OneCall(env, run, calls, calls * spent, spent);
        calls := calls + 1;
      }
    }
  }

  lemma {:induction false} Retries(env: Env, run: Run, left: nat, calls: nat, spent: nat) returns (last: Run)
    requires Legal(env, run) && Working(At(env, run), left, calls, calls * spent) && spent <= env.maxResponse
    ensures Legal(env, last) && Working(At(env, last), 0, calls + left, (calls + left) * spent)
    decreases left
  {
    last := run;
    if left > 0 {
      var next := ChargeOne(env, run, left, calls, calls * spent, spent);
      OneCallMore(calls, spent);
      last := Retries(env, next, left - 1, calls + 1, spent);
    }
  }

  /** As many calls as fit are made, each with `spent` tokens, unless the token cap is passed before. */
  lemma SpendAll(env: Env, spent: nat) returns (run: Run, calls: nat)
    requires env.maxCalls >= 1 && env.retries >= 1 && spent <= env.maxResponse
    ensures Legal(env, run) && 0 in At(env, run).rows
    ensures At(env, run).rows[0].llmCalls == calls && At(env, run).rows[0].tokensUsed == calls * spent
    ensures calls == CallCap(env) || calls * spent > env.maxTokens
  {
    run, calls := SeveralCalls(env, env.maxCalls - 1, spent);
    if calls == env.maxCalls - 1 && calls * spent <= env.maxTokens {
      var begun := BeginOne(env, run, calls, calls * spent);
      run := Retries(env, begun, env.retries, calls, spent);
      calls := calls + env.retries;
    }
  }

  /** The bound is reached: the retries of the last call admitted go past the configured cap. */
  lemma CallCapIsReached(env: Env) returns (run: Run)
    requires env.maxCalls >= 1 && env.retries >= 1
    ensures Legal(env, run) && 0 in At(env, run).rows && At(env, run).rows[0].llmCalls == CallCap(env)
  {
    var calls;
    run, calls := SpendAll(env, 0);
  }

  ghost predicate CallsAreCapped(env: Env) {
    forall run, id :: Legal(env, run) && id in At(env, run).rows ==> At(env, run).rows[id].llmCalls <= env.maxCalls
  }

  ghost predicate TokensAreCapped(env: Env) {
    forall run, id :: Legal(env, run) && id in At(env, run).rows ==> At(env, run).rows[id].tokensUsed <= env.maxTokens
  }

  /** With exclusive execution the cap on calls is hard exactly when no call retries, or none is allowed. */
  lemma CallsAreCappedIff(env: Env)
    requires Sound(env)
    ensures CallsAreCapped(env) <==> env.maxCalls == 0 || env.retries <= 1
  {
    if env.maxCalls == 0 || env.retries <= 1 {
      forall run, id | Legal(env, run) && id in At(env, run).rows
        ensures At(env, run).rows[id].llmCalls <= env.maxCalls
      {
        BudgetHolds(env, run, id);
      }
    } else {
      var run := CallCapIsReached(env);
      assert At(env, run).rows[0].llmCalls > env.maxCalls;
    }
  }

  /** The cap on tokens is hard exactly when the calls that fit cannot use it up. */
  lemma TokensAreCappedIff(env: Env)
    requires Sound(env)
    ensures TokensAreCapped(env) <==> CallCap(env) * env.maxResponse <= env.maxTokens
  {
    if CallCap(env) * env.maxResponse <= env.maxTokens {
      forall run, id | Legal(env, run) && id in At(env, run).rows
        ensures At(env, run).rows[id].tokensUsed <= env.maxTokens
      {
        TokensFitTheCalls(env, run, id);
      }
    } else {
      var run, calls := SpendAll(env, env.maxResponse);
      assert At(env, run).rows[0].tokensUsed > env.maxTokens;
    }
  }
}
