/** Intake: one row per key, and one winner per degraded episode, on every interleaving of the callers. */
module QueueIntake {
  import opened States
  import opened Database
  import opened Queue
  import opened QueueSafety

  // ------------------------------------------------------------- rows and keys

  ghost predicate UniqueKeys(s: System) {
    forall i, j :: i in s.rows && j in s.rows && s.rows[i].key == s.rows[j].key ==> i == j
  }

  /** Between its statements a caller only remembers a row that exists under its key. */
  predicate Informed(s: System, client: Client) {
    match client
    case Asking(_) => true
    case Looking(key) => KeyTaken(s.rows, key)
    case Retrying(key, id) => id in s.rows && s.rows[id].key == key
    case Told(key, id, _) => id in s.rows && s.rows[id].key == key
  }

  /** The callers told `created` for a row are one for its insertion and one for each requeueing. */
  ghost predicate Won(s: System, id: Id) {
    id in s.rows && id in s.ledgers ==>
      && |s.ledgers[id].winners| == s.ledgers[id].requeues + 1
      && forall c :: c in s.ledgers[id].winners <==> c in s.clients && s.clients[c] == Told(s.rows[id].key, id, true)
  }

  ghost predicate Fair(s: System) {
    && UniqueKeys(s) && s.rows.Keys == s.ledgers.Keys
    && (forall c :: c in s.clients ==> Informed(s, s.clients[c]))
    && (forall id :: id in s.rows ==> Won(s, id))
  }

  lemma KeysKept(env: Env, s: System, step: Step)
    requires Enabled(env, s, step)
    ensures var t := Apply(env, s, step);
            forall id :: id in s.rows ==> id in t.rows && t.rows[id].key == s.rows[id].key
    ensures var t := Apply(env, s, step);
            forall id :: id in t.rows && id !in s.rows ==> step.TryInsert? && step.id == id && !KeyTaken(s.rows, t.rows[id].key)
  {}

  lemma UniqueKept(env: Env, s: System, step: Step)
    requires Enabled(env, s, step) && UniqueKeys(s)
    ensures UniqueKeys(Apply(env, s, step))
  {
    var t := Apply(env, s, step);
    KeysKept(env, s, step);
    forall i, j | i in t.rows && j in t.rows && t.rows[i].key == t.rows[j].key ensures i == j {
      if i in s.rows && j !in s.rows { assert KeyTaken(s.rows, t.rows[j].key); }
      if j in s.rows && i !in s.rows { assert KeyTaken(s.rows, t.rows[i].key); }
    }
  }

  lemma InformedKept(env: Env, s: System, step: Step, c: ClientId)
    requires Enabled(env, s, step) && c in Apply(env, s, step).clients
    requires c in s.clients ==> Informed(s, s.clients[c])
    ensures Informed(Apply(env, s, step), Apply(env, s, step).clients[c])
  {
    var t := Apply(env, s, step);
    KeysKept(env, s, step);
    if c in s.clients && t.clients[c].Looking? {
      var key := t.clients[c].key;
      var id :| id in s.rows && s.rows[id].key == key;
      assert id in t.rows && t.rows[id].key == key;
    }
  }

  /** A caller wins a row by one insertion or one requeueing, once. */
  lemma WonKept(env: Env, s: System, step: Step, id: Id)
    requires Enabled(env, s, step) && id in s.rows && id in s.ledgers && Won(s, id)
    requires step.TryRequeue? ==> Informed(s, s.clients[step.c])
    ensures Won(Apply(env, s, step), id)
  {
    var t := Apply(env, s, step);
    if step.TryRequeue? && s.clients[step.c].id == id && s.rows[id].state.Degraded? {
      assert step.c !in s.ledgers[id].winners;
    }
  }

  lemma WonAtOnce(env: Env, s: System, c: ClientId, id: Id)
    requires Enabled(env, s, TryInsert(c, id)) && !KeyTaken(s.rows, s.clients[c].key)
    requires forall d :: d in s.clients ==> Informed(s, s.clients[d])
    ensures Won(Apply(env, s, TryInsert(c, id)), id)
  {
    forall d | d in s.clients ensures s.clients[d] != Told(s.clients[c].key, id, true) {
      assert Informed(s, s.clients[d]);
    }
  }

  lemma FairKept(env: Env, s: System, step: Step)
    requires Enabled(env, s, step) && Fair(s)
    ensures Fair(Apply(env, s, step))
  {
    var t := Apply(env, s, step);
    KeysKept(env, s, step);
    UniqueKept(env, s, step);
    forall c | c in t.clients ensures Informed(t, t.clients[c]) { InformedKept(env, s, step, c); }
    forall id | id in t.rows ensures Won(t, id) {
      if id in s.rows { WonKept(env, s, step, id); } else { WonAtOnce(env, s, step.c, id); }
    }
  }

  lemma {:induction false} FairAlways(env: Env, run: Run)
    requires Legal(env, run)
    ensures Fair(At(env, run))
  {
    if run.Then? {
      FairAlways(env, run.before);
      FairKept(env, At(env, run.before), run.step);
    }
  }

  /** At most one row per key, and any two callers are answered with the same row exactly when their keys agree. */
  lemma IntakeIsIdempotent(env: Env, run: Run, c: ClientId, d: ClientId)
    requires Legal(env, run) && c in At(env, run).clients && d in At(env, run).clients
    requires At(env, run).clients[c].Told? && At(env, run).clients[d].Told?
    ensures UniqueKeys(At(env, run))
    ensures At(env, run).clients[c].id == At(env, run).clients[d].id <==>
            At(env, run).clients[c].key == At(env, run).clients[d].key
  {
    FairAlways(env, run);
    var s := At(env, run);
    assert Informed(s, s.clients[c]) && Informed(s, s.clients[d]);
  }

  // -------------------------------------------------------- degraded episodes

  /** An episode is ended by at most one requeueing, whatever else may end it. */
  predicate Ended(row: Row, ledger: Ledger) {
    ledger.requeues + (if row.state.Degraded? then 1 else 0) <= ledger.degradations
  }

  lemma EndedKept(env: Env, s: System, step: Step, id: Id)
    requires Enabled(env, s, step)
    requires id in Apply(env, s, step).rows && id in Apply(env, s, step).ledgers
    requires s.rows.Keys == s.ledgers.Keys
    requires id in s.rows ==> Ended(s.rows[id], s.ledgers[id])
    ensures Ended(Apply(env, s, step).rows[id], Apply(env, s, step).ledgers[id])
  {
    if step.Work? && s.Pc(step.w).id == id { MoveEnded(env, s.now, s.Held(step.w), step.move); }
  }

  lemma MoveEnded(env: Env, now: real, c: Cell, move: Move)
    requires CanMove(env, now, c, move) && Ended(c.row, c.ledger)
    ensures Ended(Do(env, now, c, move).row, Do(env, now, c, move).ledger)
  {}

  lemma {:induction false} EndedAlways(env: Env, run: Run, id: Id)
    requires Legal(env, run) && id in At(env, run).rows
    ensures id in At(env, run).ledgers && Ended(At(env, run).rows[id], At(env, run).ledgers[id])
  {
    FairAlways(env, run);
    if run.Then? {
      if id in At(env, run.before).rows { EndedAlways(env, run.before, id); }
      FairAlways(env, run.before);
      EndedKept(env, At(env, run.before), run.step, id);
    }
  }

  /**
   Whatever the timing, no episode of degradation has two winners: those answered with a new run are at
   most one for the insertion and one for each episode, not counting one that goes on.
   */
  lemma AtMostOneWinnerPerEpisode(env: Env, run: Run, id: Id)
    requires Legal(env, run) && id in At(env, run).rows
    ensures id in At(env, run).ledgers
    ensures var s := At(env, run);
            && (forall c :: c in s.ledgers[id].winners <==> c in s.clients && s.clients[c] == Told(s.rows[id].key, id, true))
            && |s.ledgers[id].winners| + (if s.rows[id].state.Degraded? then 1 else 0) <= 1 + s.ledgers[id].degradations
  {
    FairAlways(env, run);
    EndedAlways(env, run, id);
    assert Won(At(env, run), id);
  }

  /** Every episode of degradation that has ended was ended by one requeueing. */
  predicate Settled(row: Row, ledger: Ledger) {
    ledger.degradations == ledger.requeues + if row.state.Degraded? then 1 else 0
  }

  lemma SettledKept(env: Env, s: System, step: Step, id: Id)
    requires Sound(env) && Enabled(env, s, step) && Leased(s)
    requires id in Apply(env, s, step).rows && id in Apply(env, s, step).ledgers
    requires s.rows.Keys == s.ledgers.Keys
    requires id in s.rows ==> Settled(s.rows[id], s.ledgers[id])
    ensures Settled(Apply(env, s, step).rows[id], Apply(env, s, step).ledgers[id])
  {
    if step.Work? {
      assert Covered(s, s.workers[step.w]);
      if s.Pc(step.w).id == id { MoveSettled(env, s.now, s.Held(step.w), step.move); }
    }
  }

  lemma MoveSettled(env: Env, now: real, c: Cell, move: Move)
    requires CanMove(env, now, c, move) && Settled(c.row, c.ledger)
    requires !env.lateFaults && (c.pc.Executing() ==> !Terminal(c.row.state))
    ensures Settled(Do(env, now, c, move).row, Do(env, now, c, move).ledger)
  {}

  lemma {:induction false} SettledAlways(env: Env, run: Run, id: Id)
    requires Sound(env) && Legal(env, run) && id in At(env, run).rows
    ensures id in At(env, run).ledgers && Settled(At(env, run).rows[id], At(env, run).ledgers[id])
  {
    FairAlways(env, run);
    if run.Then? {
      if id in At(env, run.before).rows { SettledAlways(env, run.before, id); }
      FairAlways(env, run.before);
      LeaseAlways(env, run.before);
      SettledKept(env, At(env, run.before), run.step, id);
    }
  }

  /**
   However many callers resubmit at once, those answered with a new run are exactly one for the
   insertion and one for each episode of degradation that has ended.
   */
  lemma OneWinnerPerEpisode(env: Env, run: Run, id: Id)
    requires Sound(env) && Legal(env, run) && id in At(env, run).rows
    ensures id in At(env, run).ledgers
    ensures var s := At(env, run);
            && (forall c :: c in s.ledgers[id].winners <==> c in s.clients && s.clients[c] == Told(s.rows[id].key, id, true))
            && |s.ledgers[id].winners| ==
                 1 + s.ledgers[id].degradations - if s.rows[id].state.Degraded? then 1 else 0
  {
    FairAlways(env, run);
    SettledAlways(env, run, id);
    assert Won(At(env, run), id);
  }
}
