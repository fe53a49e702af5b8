/** With exclusive execution the budget of a row is exceeded by at most the retries of one call, for its whole life. */
module QueueBudget {
  import opened Prelude
  import opened Database
  import opened Queue
  import opened QueueReruns
  import opened QueueSafety

  /** The check lets the last call in below the cap, and that call may record `retries` answers. */
  function CallCap(env: Env): nat {
    if env.maxCalls == 0 || env.retries == 0 then 0 else env.maxCalls - 1 + env.retries
  }

  function TokenCap(env: Env): nat { env.maxTokens + env.retries * env.maxResponse }

  predicate RowPaid(env: Env, row: Row) {
    row.llmCalls <= CallCap(env) && row.tokensUsed <= TokenCap(env)
  }

  /** What a call in flight may still record fits under the caps. */
  predicate Paid(env: Env, pc: Worker, row: Row) {
    pc.Running? && pc.left > 0 ==>
      row.llmCalls + pc.left <= CallCap(env) && row.tokensUsed + pc.left * env.maxResponse <= TokenCap(env)
  }

  predicate PaidAt(env: Env, s: System, w: WorkerId) { s.Holds(w) ==> Paid(env, s.Pc(w), s.Held(w).row) }

  ghost predicate Solvent(env: Env, s: System) {
    && (forall id :: id in s.rows ==> RowPaid(env, s.rows[id]))
    && (forall w :: w in s.workers ==> PaidAt(env, s, w))
  }

  lemma OneResponseLess(left: nat, maxResponse: nat)
    ensures left > 0 ==> (left - 1) * maxResponse + maxResponse == left * maxResponse
  {}

  lemma MovePaid(env: Env, now: real, c: Cell, move: Move)
    requires c.pc.Busy() && CanMove(env, now, c, move)
    requires Paid(env, c.pc, c.row) && RowPaid(env, c.row)
    ensures var next := Do(env, now, c, move); Paid(env, next.pc, next.row) && RowPaid(env, next.row)
  {
    if move.Charge? { OneResponseLess(c.pc.left, env.maxResponse); }
  }

  lemma PaidWork(env: Env, s: System, w: WorkerId, move: Move, id: Id)
    requires Enabled(env, s, Work(w, move)) && id in s.rows
    requires PaidAt(env, s, w) && RowPaid(env, s.rows[s.Pc(w).id]) && RowPaid(env, s.rows[id])
    ensures var t := Apply(env, s, Work(w, move)); PaidAt(env, t, w) && RowPaid(env, t.rows[id])
  {
    MovePaid(env, s.now, s.Held(w), move);
  }

  lemma PaidOther(env: Env, s: System, step: Step, w: WorkerId)
    requires Enabled(env, s, step) && Actor(step) != Some(w)
    requires s.Pc(w).Busy() ==> s.Holds(w)
    requires PaidAt(env, s, w)
    requires step.Work? ==> s.Pc(step.w).Executing() && Apart(s.Pc(w), s.Pc(step.w))
    ensures PaidAt(env, Apply(env, s, step), w)
  {}

  lemma RowPaidRest(env: Env, s: System, step: Step, id: Id)
    requires Enabled(env, s, step) && !step.Work? && id in Apply(env, s, step).rows
    requires id in s.rows ==> RowPaid(env, s.rows[id])
    ensures RowPaid(env, Apply(env, s, step).rows[id])
  {}

  lemma SolventKept(env: Env, s: System, step: Step)
    requires Sound(env) && Enabled(env, s, step)
    requires Solvent(env, s) && Exclusive(s)
    requires forall w :: w in s.workers ==> TrackedAt(s, w)
    ensures Solvent(env, Apply(env, s, step))
  {
    var t := Apply(env, s, step);
    forall id | id in t.rows ensures RowPaid(env, t.rows[id]) {
      if step.Work? && id in s.rows { PaidWork(env, s, step.w, step.move, id); } else { RowPaidRest(env, s, step, id); }
    }
    forall w | w in t.workers ensures PaidAt(env, t, w) {
      if Actor(step) != Some(w) {
        assert w in s.workers && TrackedAt(s, w) && (step.Work? ==> Apart(s.workers[w], s.workers[step.w]));
        PaidOther(env, s, step, w);
      } else if step.Work? {
        PaidWork(env, s, w, step.move, s.Pc(w).id);
      }
    }
  }

  lemma {:induction false} SolventAlways(env: Env, run: Run)
    requires Sound(env) && Legal(env, run)
    ensures Solvent(env, At(env, run))
  {
    if run.Then? {
      SolventAlways(env, run.before);
      LeaseAlways(env, run.before);
      BookedAlways(env, run.before);
      SolventKept(env, At(env, run.before), run.step);
    }
  }

  /**
   Over the whole life of a row, through crashes, later attempts and resubmissions, the calls and the
   tokens recorded for it stay within the caps plus one call's worth of retries.
   */
  lemma BudgetHolds(env: Env, run: Run, id: Id)
    requires Sound(env) && Legal(env, run) && id in At(env, run).rows
    ensures At(env, run).rows[id].llmCalls <= CallCap(env)
    ensures At(env, run).rows[id].tokensUsed <= TokenCap(env)
  {
    SolventAlways(env, run);
    assert RowPaid(env, At(env, run).rows[id]);
  }

  // --------------------------------------------------------- calls and tokens

  /** Every recorded call brings at most the largest response. */
  ghost predicate Moderate(env: Env, s: System) {
    forall id :: id in s.rows ==> RowModerate(env, s.rows[id])
  }

  predicate RowModerate(env: Env, row: Row) { row.tokensUsed <= row.llmCalls * env.maxResponse }

  lemma OneCallMore(calls: nat, maxResponse: nat)
    ensures (calls + 1) * maxResponse == calls * maxResponse + maxResponse
  {}

  lemma ModerateKept(env: Env, s: System, step: Step, id: Id)
    requires Enabled(env, s, step) && Moderate(env, s) && id in Apply(env, s, step).rows
    ensures RowModerate(env, Apply(env, s, step).rows[id])
  {
    if id in s.rows { OneCallMore(s.rows[id].llmCalls, env.maxResponse); }
  }

  lemma {:induction false} ModerateAlways(env: Env, run: Run)
    requires Legal(env, run)
    ensures Moderate(env, At(env, run))
  {
    if run.Then? {
      ModerateAlways(env, run.before);
      forall id | id in At(env, run).rows ensures RowModerate(env, At(env, run).rows[id]) {
        ModerateKept(env, At(env, run.before), run.step, id);
      }
    }
  }

  lemma TimesMonotone(calls: nat, cap: nat, maxResponse: nat)
    requires calls <= cap
    ensures calls * maxResponse <= cap * maxResponse
  {
    assert cap * maxResponse == calls * maxResponse + (cap - calls) * maxResponse;
  }

  /** Whatever the timing, the tokens recorded for a row stay under a fixed ceiling too. */
  lemma TokensNeverPassTheCeiling(env: Env, run: Run, id: Id)
    requires Legal(env, run) && id in At(env, run).rows
    ensures At(env, run).rows[id].tokensUsed <= CallCeiling(env) * env.maxResponse
  {
    ModerateAlways(env, run);
    CallsNeverPassTheCeiling(env, run, id);
    assert RowModerate(env, At(env, run).rows[id]);
    TimesMonotone(At(env, run).rows[id].llmCalls, CallCeiling(env), env.maxResponse);
  }

  /** With exclusive execution they are also bounded by the calls that fit. */
  lemma TokensFitTheCalls(env: Env, run: Run, id: Id)
    requires Sound(env) && Legal(env, run) && id in At(env, run).rows
    ensures At(env, run).rows[id].tokensUsed <= CallCap(env) * env.maxResponse
  {
    ModerateAlways(env, run);
    BudgetHolds(env, run, id);
    assert RowModerate(env, At(env, run).rows[id]);
    TimesMonotone(At(env, run).rows[id].llmCalls, CallCap(env), env.maxResponse);
  }
}
