/**
 What holds on every run whatever the timing: expired leases, zombie workers, late faults and any
 number of resubmissions included.
 */
module QueueReruns {
  import opened Prelude
  import opened States
  import opened Database
  import opened Queue

  /** A busy worker works under an attempt number of its row, which is new to the books as long as it should be. */
  predicate Tracked(c: Cell)
    requires c.pc.Busy()
  {
    && 1 <= c.pc.attempt <= c.row.attempts
    && (c.pc.Handling? ==> c.pc.attempt !in c.ledger.started)
    && (c.pc.Running? ==> c.pc.attempt in c.ledger.flight && c.ledger.flight[c.pc.attempt] == c.pc.left)
    && (c.pc.Executing() ==> c.pc.attempt !in c.ledger.closed)
  }

  predicate TrackedAt(s: System, w: WorkerId) { s.Pc(w).Busy() ==> s.Holds(w) && Tracked(s.Held(w)) }

  predicate Distinct(v: Worker, w: Worker) {
    v.Busy() && w.Busy() && v.id == w.id ==> v.attempt != w.attempt
  }

  function Flight(ledger: Ledger, attempt: nat): nat {
    if attempt in ledger.flight then ledger.flight[attempt] else 0
  }

  function InFlight(ledger: Ledger): nat { Flight(ledger, 1) + Flight(ledger, 2) + Flight(ledger, 3) }

  /** With zombies, each of the possible runs of a row may have one call past the check at a time. */
  function CallCeiling(env: Env): nat {
    if env.maxCalls == 0 then 0 else env.maxCalls - 1 + MAX_ATTEMPTS * env.retries
  }

  ghost predicate Accounted(env: Env, row: Row, ledger: Ledger) {
    && (forall a :: a in ledger.started ==> 1 <= a <= row.attempts && a <= MAX_ATTEMPTS)
    && ledger.starts == |ledger.started|
    && ledger.flight.Keys == ledger.started
    && (forall a :: a in ledger.flight ==> ledger.flight[a] <= env.retries)
    && (forall a :: a in ledger.closed ==> a <= row.attempts)
    && (!env.lateFaults ==> forall a :: ledger.closed[a] <= 1)
    && row.llmCalls + InFlight(ledger) <= CallCeiling(env)
  }

  ghost predicate Booked(env: Env, s: System) {
    && s.rows.Keys == s.ledgers.Keys
    && (forall w :: w in s.workers ==> TrackedAt(s, w))
    && (forall v, w :: v in s.workers && w in s.workers && v != w ==> Distinct(s.workers[v], s.workers[w]))
    && (forall id :: id in s.rows && id in s.ledgers ==> Accounted(env, s.rows[id], s.ledgers[id]))
  }

  // ----------------------------------------------------------------- one move

  lemma MoveTracked(env: Env, now: real, c: Cell, move: Move)
    requires c.pc.Busy() && Tracked(c) && CanMove(env, now, c, move)
    ensures Do(env, now, c, move).pc.Busy() ==> Tracked(Do(env, now, c, move))
  {}

  lemma AccountedBegin(env: Env, row: Row, ledger: Ledger, a: nat)
    requires Accounted(env, row, ledger) && 1 <= a <= Min(row.attempts, MAX_ATTEMPTS) && a !in ledger.started
    ensures Accounted(env, row, ledger.(started := ledger.started + {a}, starts := ledger.starts + 1,
                                        flight := ledger.flight[a := 0]))
  {}

  /** A model call begins below the cap, or goes on paying for each answer with an attempt. */
  lemma AccountedFly(env: Env, row: Row, ledger: Ledger, row': Row, a: nat, left: nat)
    requires Accounted(env, row, ledger) && a in ledger.flight && left <= env.retries
    requires row'.attempts == row.attempts
    requires row'.llmCalls + left <= row.llmCalls + ledger.flight[a] ||
             (row'.llmCalls == row.llmCalls < env.maxCalls)
    ensures Accounted(env, row', ledger.(flight := ledger.flight[a := left]))
  {
    var next := ledger.(flight := ledger.flight[a := left]);
    assert a in ledger.started && 1 <= a <= 3;
    assert forall b :: b in next.flight ==> next.flight[b] <= env.retries;
    assert forall b :: Flight(next, b) == if b == a then left else Flight(ledger, b);
    assert forall b :: Flight(ledger, b) <= env.retries;
    assert next.flight.Keys == ledger.flight.Keys;
  }

  lemma AccountedClose(env: Env, c: Cell, next: Cell)
    requires Accounted(env, c.row, c.ledger) && c.pc.Busy() && Tracked(c)
    requires env.lateFaults || c.pc.Executing()
    requires next.row.attempts == c.row.attempts && next.row.llmCalls == c.row.llmCalls
    requires exists n :: next.ledger == c.ledger.(closed := c.ledger.closed + multiset{c.pc.attempt}, degradations := n)
    ensures Accounted(env, next.row, next.ledger)
  {}

  /** Renewing, moving, claiming and requeueing keep the books: attempts only grow and calls stay. */
  lemma AccountedElsewhere(env: Env, row: Row, ledger: Ledger, row': Row, ledger': Ledger)
    requires Accounted(env, row, ledger)
    requires row'.attempts >= row.attempts && row'.llmCalls == row.llmCalls
    requires ledger'.started == ledger.started && ledger'.starts == ledger.starts
    requires ledger'.flight == ledger.flight && ledger'.closed == ledger.closed
    ensures Accounted(env, row', ledger')
  {}

  lemma MoveAccounted(env: Env, now: real, c: Cell, move: Move)
    requires c.pc.Busy() && Tracked(c) && CanMove(env, now, c, move)
    requires Accounted(env, c.row, c.ledger)
    ensures Accounted(env, Do(env, now, c, move).row, Do(env, now, c, move).ledger)
  {
    var next := Do(env, now, c, move);
    match move
    case Begin => AccountedBegin(env, c.row, c.ledger, c.pc.attempt);
    case BeginCall => AccountedFly(env, c.row, c.ledger, next.row, c.pc.attempt, env.retries);
    case Charge(_) => AccountedFly(env, c.row, c.ledger, next.row, c.pc.attempt, c.pc.left - 1);
    case EndCall => AccountedFly(env, c.row, c.ledger, next.row, c.pc.attempt, 0);
    case GiveUp => AccountedClose(env, c, next);
    case Finish(_, _, _, _) => AccountedClose(env, c, next);
    case LateFault(_) => AccountedClose(env, c, next);
    case _ => AccountedElsewhere(env, c.row, c.ledger, next.row, next.ledger);
  }

  // ----------------------------------------------------------------- one step

  lemma TrackedClaim(env: Env, s: System, w: WorkerId, id: Id)
    requires Enabled(env, s, Claim(w, id)) && id in s.ledgers && Accounted(env, s.rows[id], s.ledgers[id])
    ensures TrackedAt(Apply(env, s, Claim(w, id)), w)
  {}

  lemma TrackedWork(env: Env, s: System, w: WorkerId, move: Move)
    requires Enabled(env, s, Work(w, move)) && TrackedAt(s, w)
    ensures TrackedAt(Apply(env, s, Work(w, move)), w)
  {
    MoveTracked(env, s.now, s.Held(w), move);
  }

  lemma TrackedActor(env: Env, s: System, step: Step)
    requires s.rows.Keys == s.ledgers.Keys
    requires forall w :: w in s.workers ==> TrackedAt(s, w)
    requires forall id :: id in s.rows && id in s.ledgers ==> Accounted(env, s.rows[id], s.ledgers[id])
    requires Enabled(env, s, step) && Actor(step).Some?
    ensures TrackedAt(Apply(env, s, step), Actor(step).value)
  {
    match step
    case Claim(w, id) => TrackedClaim(env, s, w, id);
    case Work(w, move) => TrackedWork(env, s, w, move);
    case _ =>
  }

  lemma TrackedOther(env: Env, s: System, step: Step, w: WorkerId)
    requires Enabled(env, s, step) && Actor(step) != Some(w) && TrackedAt(s, w)
    requires Actor(step).Some? ==> Distinct(s.Pc(w), s.Pc(Actor(step).value))
    ensures TrackedAt(Apply(env, s, step), w)
  {}

  lemma DistinctKept(env: Env, s: System, step: Step, v: WorkerId, w: WorkerId)
    requires Enabled(env, s, step) && v != w
    requires TrackedAt(s, v) && TrackedAt(s, w) && Distinct(s.Pc(v), s.Pc(w))
    ensures Distinct(Apply(env, s, step).Pc(v), Apply(env, s, step).Pc(w))
  {}

  lemma AccountedWork(env: Env, s: System, w: WorkerId, move: Move, id: Id)
    requires Enabled(env, s, Work(w, move)) && TrackedAt(s, w)
    requires id in s.rows && id in s.ledgers && Accounted(env, s.rows[id], s.ledgers[id])
    ensures var t := Apply(env, s, Work(w, move)); Accounted(env, t.rows[id], t.ledgers[id])
  {
    if s.Pc(w).id == id { MoveAccounted(env, s.now, s.Held(w), move); }
  }

  lemma AccountedRest(env: Env, s: System, step: Step, id: Id)
    requires Enabled(env, s, step) && !step.Work?
    requires id in s.rows && id in s.ledgers && Accounted(env, s.rows[id], s.ledgers[id])
    ensures var t := Apply(env, s, step); Accounted(env, t.rows[id], t.ledgers[id])
  {
    var t := Apply(env, s, step);
    AccountedElsewhere(env, s.rows[id], s.ledgers[id], t.rows[id], t.ledgers[id]);
  }

  lemma AccountedNew(env: Env, s: System, step: Step, id: Id)
    requires Enabled(env, s, step) && s.rows.Keys == s.ledgers.Keys
    requires id !in s.rows && id in Apply(env, s, step).rows
    ensures var t := Apply(env, s, step); id in t.ledgers && Accounted(env, t.rows[id], t.ledgers[id])
  {}

  lemma AccountedKept(env: Env, s: System, step: Step, id: Id)
    requires Enabled(env, s, step) && s.rows.Keys == s.ledgers.Keys && id in Apply(env, s, step).rows
    requires id in s.rows ==> Accounted(env, s.rows[id], s.ledgers[id])
    requires step.Work? ==> TrackedAt(s, step.w)
    ensures var t := Apply(env, s, step); id in t.ledgers && Accounted(env, t.rows[id], t.ledgers[id])
  {
    if id !in s.rows {
      AccountedNew(env, s, step, id);
    } else if step.Work? {
      AccountedWork(env, s, step.w, step.move, id);
    } else {
      AccountedRest(env, s, step, id);
    }
  }

  lemma BooksAreKept(env: Env, s: System, step: Step)
    requires Enabled(env, s, step) && s.rows.Keys == s.ledgers.Keys
    requires step.Work? ==> TrackedAt(s, step.w)
    requires forall id :: id in s.rows && id in s.ledgers ==> Accounted(env, s.rows[id], s.ledgers[id])
    ensures var t := Apply(env, s, step);
            forall id :: id in t.rows ==> id in t.ledgers && Accounted(env, t.rows[id], t.ledgers[id])
  {
    forall id | id in Apply(env, s, step).rows
      ensures var t := Apply(env, s, step); id in t.ledgers && Accounted(env, t.rows[id], t.ledgers[id])
    {
      AccountedKept(env, s, step, id);
    }
  }

  lemma KeysAreKept(env: Env, s: System, step: Step)
    requires Enabled(env, s, step) && s.rows.Keys == s.ledgers.Keys
    ensures Apply(env, s, step).rows.Keys == Apply(env, s, step).ledgers.Keys
  {}

  lemma WorkersAreTracked(env: Env, s: System, step: Step)
    requires Booked(env, s) && Enabled(env, s, step)
    ensures var t := Apply(env, s, step); forall w :: w in t.workers ==> TrackedAt(t, w)
  {
    forall w | w in Apply(env, s, step).workers ensures TrackedAt(Apply(env, s, step), w) {
      if Actor(step) == Some(w) { TrackedActor(env, s, step); } else { TrackedOther(env, s, step, w); }
    }
  }

  lemma WorkersAreDistinct(env: Env, s: System, step: Step)
    requires Enabled(env, s, step)
    requires forall w :: w in s.workers ==> TrackedAt(s, w)
    requires forall v, w :: v in s.workers && w in s.workers && v != w ==> Distinct(s.workers[v], s.workers[w])
    ensures var t := Apply(env, s, step);
            forall v, w :: v in t.workers && w in t.workers && v != w ==> Distinct(t.workers[v], t.workers[w])
  {
    var t := Apply(env, s, step);
    forall v, w | v in t.workers && w in t.workers && v != w ensures Distinct(t.workers[v], t.workers[w]) {
      DistinctKept(env, s, step, v, w);
    }
  }

  // ---------------------------------------------------------------------- runs

  lemma {:induction false} BookedAlways(env: Env, run: Run)
    requires Legal(env, run)
    ensures Booked(env, At(env, run))
  {
    if run.Then? {
      BookedAlways(env, run.before);
      var s, step := At(env, run.before), run.step;
      assert step.Work? ==> TrackedAt(s, step.w);
      BooksAreKept(env, s, step);
      KeysAreKept(env, s, step);
      WorkersAreTracked(env, s, step);
      WorkersAreDistinct(env, s, step);
    }
  }

  lemma AtMostThree(s: set<nat>)
    requires forall a :: a in s ==> 1 <= a <= MAX_ATTEMPTS
    ensures |s| <= MAX_ATTEMPTS
  {
    var all := {1, 2, 3};
    assert s <= all;
    assert |all - s| + |s| == 3;
  }

  /** The pipeline starts at most MAX_ATTEMPTS times for a row, each time under another attempt number. */
  lemma RerunsAreBounded(env: Env, run: Run, id: Id)
    requires Legal(env, run) && id in At(env, run).rows
    ensures id in At(env, run).ledgers
    ensures var ledger := At(env, run).ledgers[id];
            ledger.starts == |ledger.started| <= MAX_ATTEMPTS
  {
    BookedAlways(env, run);
    var s := At(env, run);
    assert Accounted(env, s.rows[id], s.ledgers[id]);
    AtMostThree(s.ledgers[id].started);
  }

  /** A claim takes an attempt number above every one used before for that row. */
  lemma ClaimsGrow(env: Env, run: Run, w: WorkerId, id: Id, other: WorkerId)
    requires Legal(env, Then(run, Claim(w, id)))
    ensures id in At(env, run).ledgers
    ensures var attempt := At(env, Then(run, Claim(w, id))).Pc(w).attempt;
            && (forall a :: a in At(env, run).ledgers[id].started ==> a < attempt)
            && (At(env, run).Pc(other).Busy() && At(env, run).Pc(other).id == id ==> At(env, run).Pc(other).attempt < attempt)
  {
    BookedAlways(env, run);
    var s := At(env, run);
    assert Accounted(env, s.rows[id], s.ledgers[id]);
    assert other in s.workers ==> TrackedAt(s, other);
  }

  /** What the others do leaves a worker where it is. */
  lemma {:induction false} Undisturbed(env: Env, run: Run, steps: seq<Step>, w: WorkerId)
    requires Legal(env, Extend(run, steps)) && forall i :: 0 <= i < |steps| ==> Actor(steps[i]) != Some(w)
    ensures Legal(env, run) && At(env, Extend(run, steps)).Pc(w) == At(env, run).Pc(w)
  {
    if steps != [] { Undisturbed(env, run, steps[..|steps| - 1], w); }
  }

  /** The row is failed by this worker and nothing else changes in the table; or it was left alone. */
  predicate FailedOrLeft(s: System, t: System, w: WorkerId, id: Id, step: Step)
    requires id in s.rows
  {
    if step == Work(w, GiveUp) then
      t.Pc(w).Idle? && t.rows == s.rows[id := Finished(s.rows[id], Failed, None, "ERROR", "max attempts exceeded", s.now)]
    else
      (step.Leave? || step.Crash?) && t.rows == s.rows
  }

  lemma ExhaustedStep(env: Env, s: System, w: WorkerId, id: Id, step: Step)
    requires Enabled(env, s, step) && Actor(step) == Some(w) && TrackedAt(s, w)
    requires s.Pc(w).Handling? && s.Pc(w).id == id && s.Pc(w).attempt > MAX_ATTEMPTS
    ensures id in s.rows && Enabled(env, s, Work(w, GiveUp)) && FailedOrLeft(s, Apply(env, s, step), w, id, step)
  {}

  /**
   A claim after the attempts are used up: whatever the others do meanwhile, the claimant can fail the
   row, and all else it can do is to leave it or crash; no other row changes.
   */
  lemma ExhaustedRowsFail(env: Env, run: Run, w: WorkerId, id: Id, steps: seq<Step>, step: Step)
    requires Legal(env, Then(Extend(Then(run, Claim(w, id)), steps), step))
    requires forall i :: 0 <= i < |steps| ==> Actor(steps[i]) != Some(w)
    requires id in At(env, run).rows && At(env, run).rows[id].attempts >= MAX_ATTEMPTS && Actor(step) == Some(w)
    ensures var s := At(env, Extend(Then(run, Claim(w, id)), steps));
            && id in s.rows && Enabled(env, s, Work(w, GiveUp))
            && FailedOrLeft(s, At(env, Then(Extend(Then(run, Claim(w, id)), steps), step)), w, id, step)
  {
    var claimed := Then(run, Claim(w, id));
    Undisturbed(env, claimed, steps, w);
    assert At(env, claimed).Pc(w) == Handling(id, At(env, run).rows[id].attempts + 1, At(env, run).now);
    BookedAlways(env, Extend(claimed, steps));
    assert TrackedAt(At(env, Extend(claimed, steps)), w);
    ExhaustedStep(env, At(env, Extend(claimed, steps)), w, id, step);
  }

  /** Without late faults each attempt writes at most one terminal state. */
  lemma OneTerminalWritePerAttempt(env: Env, run: Run, id: Id, attempt: nat)
    requires Legal(env, run) && !env.lateFaults && id in At(env, run).rows
    ensures id in At(env, run).ledgers && At(env, run).ledgers[id].closed[attempt] <= 1
  {
    BookedAlways(env, run);
    var s := At(env, run);
    assert Accounted(env, s.rows[id], s.ledgers[id]);
  }

  /** Even with several workers running one row at once, the calls recorded for it stay under a fixed ceiling. */
  lemma CallsNeverPassTheCeiling(env: Env, run: Run, id: Id)
    requires Legal(env, run) && id in At(env, run).rows
    ensures At(env, run).rows[id].llmCalls <= CallCeiling(env)
  {
    BookedAlways(env, run);
    var s := At(env, run);
    assert Accounted(env, s.rows[id], s.ledgers[id]);
  }
}
