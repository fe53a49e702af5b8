/**
 The model client: the process-wide circuit breaker, the budget check, and the retry loop of one
 structured-output call.
 */
module ModelClient {
  import opened Prelude
  import opened Database

  // ------------------------------------------------------------ circuit breaker

  datatype Limits = Limits(threshold: int, resetSeconds: real)

  datatype Gauge = Gauge(failures: int, openedAt: real)

  /** Reading the breaker: the new gauge and whether it is open. */
  function Checked(l: Limits, g: Gauge, now: real): (Gauge, bool) {
    if g.failures < l.threshold then (g, false)
    else if now - g.openedAt > l.resetSeconds then (g.(failures := l.threshold - 1), false)
    else (g, true)
  }

  function Failing(l: Limits, g: Gauge, now: real): Gauge {
    Gauge(g.failures + 1, if g.failures + 1 >= l.threshold then now else g.openedAt)
  }

  function Succeeding(g: Gauge): Gauge { g.(failures := 0) }

  class CircuitBreaker {
    const limits: Limits
    var failures: int
    var openedAt: real

    ghost function Value(): Gauge reads this { Gauge(failures, openedAt) }

    constructor (threshold: int, resetSeconds: real)
      ensures Value() == Gauge(0, 0.0) && limits == Limits(threshold, resetSeconds)
    {
      limits := Limits(threshold, resetSeconds);
      failures, openedAt := 0, 0.0;
    }

    method IsOpen(now: real) returns (open: bool)
      modifies this
      ensures (Value(), open) == Checked(limits, old(Value()), now)
      ensures open <==> old(failures) >= limits.threshold && now - old(openedAt) <= limits.resetSeconds
      ensures openedAt == old(openedAt)
      ensures failures == if old(failures) >= limits.threshold && !open then limits.threshold - 1 else old(failures)
    {
      if failures < limits.threshold { return false; }
      if now - openedAt > limits.resetSeconds {
        failures := limits.threshold - 1;
        return false;
      }
      return true;
    }

    method RecordSuccess()
      modifies this
      ensures Value() == Succeeding(old(Value()))
      ensures failures == 0 && openedAt == old(openedAt)
    {
      failures := 0;
    }

    method RecordFailure(now: real)
      modifies this
      ensures Value() == Failing(limits, old(Value()), now)
      ensures failures == old(failures) + 1 && openedAt == if failures >= limits.threshold then now else old(openedAt)
    {
      failures := failures + 1;
      if failures >= limits.threshold { openedAt := now; }
    }
  }

  // ------------------------------------------------------------- one call

  /** What the model API does with one request. */
  datatype Reply =
    | ApiError(retryable: bool)
    | Answered(tokens: nat, truncated: bool, parses: bool)

  datatype Outcome = Parsed | Malformed | Unavailable | BudgetExhausted

  /** What the attempts from one point on amount to: the outcome, the answers received, their tokens, and the requests made by then. */
  datatype Attempted = Attempted(outcome: Outcome, calls: nat, tokens: nat, made: nat) {
    function Plus(more: nat): Attempted { Attempted(outcome, calls + 1, tokens + more, made) }
  }

  function Attempts(replies: nat -> Reply, i: nat, attempts: nat): Attempted
    decreases attempts - i
  {
    if i >= attempts then Attempted(Malformed, 0, 0, i)
    else
      match replies(i)
      case ApiError(retryable) =>
        if retryable && i < attempts - 1 then Attempts(replies, i + 1, attempts) else Attempted(Unavailable, 0, 0, i + 1)
      case Answered(tokens, truncated, parses) =>
        if truncated && i < attempts - 1 then Attempts(replies, i + 1, attempts).Plus(tokens)
        else if parses then Attempted(Parsed, 1, tokens, i + 1)
        else Attempts(replies, i + 1, attempts).Plus(tokens)
  }

  /** The checks made once, before the first attempt. */
  function Admitted(open: bool, calls: nat, tokens: nat, maxCalls: nat, maxTokens: nat): Option<Outcome> {
    if open then Some(Unavailable)
    else if calls >= maxCalls || tokens > maxTokens then Some(BudgetExhausted)
    else None
  }

  /** The row after `calls` answers that used `tokens` together. */
  function Billed(row: Row, calls: nat, tokens: nat): Row {
    row.(llmCalls := row.llmCalls + calls, tokensUsed := row.tokensUsed + tokens)
  }

  /** What the breaker learns from an admitted call: its success, its failure after the last request, or nothing. */
  function Noted(l: Limits, g: Gauge, tried: Attempted, clock: nat -> real): Gauge {
    match tried.outcome
    case Parsed => Succeeding(g)
    case Unavailable => Failing(l, g, clock(tried.made))
    case _ => g
  }

  /** The gauge after a call of generate, refused or not. */
  function Generated(l: Limits, g: Gauge, replies: nat -> Reply, clock: nat -> real, refused: bool, attempts: nat): Gauge {
    var checked := Checked(l, g, clock(0)).0;
    if refused then checked else Noted(l, checked, Attempts(replies, 0, attempts), clock)
  }

  /** The attempts of an admitted call; reading number i of `clock` is the one after request i. */
  method Request(db: Submissions, id: Id, breaker: CircuitBreaker, replies: nat -> Reply, clock: nat -> real, attempts: nat)
    returns (outcome: Outcome)
    requires id in db.rows
    modifies db, breaker
    ensures var tried := Attempts(replies, 0, attempts);
            && outcome == tried.outcome
            && db.rows == old(db.rows)[id := Billed(old(db.rows)[id], tried.calls, tried.tokens)]
            && db.rows[id] == old(db.rows)[id].(llmCalls := old(db.rows)[id].llmCalls + tried.calls,
                                                tokensUsed := old(db.rows)[id].tokensUsed + tried.tokens)
            && breaker.Value() == Noted(breaker.limits, old(breaker.Value()), tried, clock)
            && match outcome
               case Parsed => breaker.failures == 0 && breaker.openedAt == old(breaker.openedAt)
               case Unavailable => breaker.failures == old(breaker.failures) + 1
               case _ => breaker.Value() == old(breaker.Value())
  {
    ghost var before, checked := db.rows[id], breaker.Value();
    ghost var billedCalls, billedTokens := 0, 0;
    ghost var goal := Attempts(replies, 0, attempts);
    var i := 0;
    while i < attempts
      invariant 0 <= i <= attempts && breaker.Value() == checked
      invariant var rest := Attempts(replies, i, attempts);
                goal == Attempted(rest.outcome, billedCalls + rest.calls, billedTokens + rest.tokens, rest.made)
      invariant db.rows == old(db.rows)[id := Billed(before, billedCalls, billedTokens)]
    {
      var reply := replies(i);
      match reply {
        case ApiError(retryable) =>
          if !(retryable && i < attempts - 1) {
            assert goal == Attempted(Unavailable, billedCalls, billedTokens, i + 1);
            breaker.RecordFailure(clock(i + 1));
            return Unavailable;
          }
        case Answered(spent, truncated, parses) =>
          db.AddUsage(id, spent);
          billedCalls, billedTokens := billedCalls + 1, billedTokens + spent;
          if !(truncated && i < attempts - 1) && parses {
            assert goal == Attempted(Parsed, billedCalls, billedTokens, i + 1);
            breaker.RecordSuccess();
            return Parsed;
          }
      }
      i := i + 1;
    }
    return Malformed;
  }

  /** The checks, then the attempts; reading number 0 of `clock` is that of the checks. */
  method Generate(db: Submissions, id: Id, breaker: CircuitBreaker, replies: nat -> Reply, clock: nat -> real,
                  maxCalls: nat, maxTokens: nat, attempts: nat)
    returns (outcome: Outcome)
    requires id in db.rows
    modifies db, breaker
    ensures var before, tried := old(db.rows)[id], Attempts(replies, 0, attempts);
            var shut := old(breaker.failures) >= breaker.limits.threshold
                        && clock(0) - old(breaker.openedAt) <= breaker.limits.resetSeconds;
            var spent := before.llmCalls >= maxCalls || before.tokensUsed > maxTokens;
            && breaker.Value() == Generated(breaker.limits, old(breaker.Value()), replies, clock, shut || spent, attempts)
            && if shut then outcome == Unavailable && db.rows == old(db.rows)
               else if spent then outcome == BudgetExhausted && db.rows == old(db.rows)
               else outcome == tried.outcome && db.rows == old(db.rows)[id := Billed(before, tried.calls, tried.tokens)]
  {
    var open := breaker.IsOpen(clock(0));
    var tokens, calls := db.GetUsage(id);
    var refused := Admitted(open, calls, tokens, maxCalls, maxTokens);
    if refused.Some? { return refused.value; }

    outcome := Request(db, id, breaker, replies, clock, attempts);
  }
}
