/** The breaker refines an explicit machine and bounds the failure rate; one call is bounded and conclusive. */
module ClientTheorems {
  import opened Prelude
  import opened ModelClient

  // ----------------------------------------------------------- explicit machine

  datatype Phase =
    | Closed(failures: int)
    | Open(since: real)
    | HalfOpen

  function CheckedPhase(l: Limits, p: Phase, now: real): (Phase, bool) {
    match p
    case Open(since) => if now - since > l.resetSeconds then (HalfOpen, false) else (p, true)
    case _ => (p, false)
  }

  function FailingPhase(l: Limits, p: Phase, now: real): Phase {
    match p
    case Closed(n) => if n + 1 < l.threshold then Closed(n + 1) else Open(now)
    case _ => Open(now)
  }

  ghost predicate Refines(l: Limits, g: Gauge, p: Phase) {
    match p
    case Closed(n) => g.failures == n < l.threshold
    case Open(since) => g.failures >= l.threshold && g.openedAt == since
    case HalfOpen => g.failures == l.threshold - 1
  }

  /** The counter and the timestamp behave as the machine closed / open / half-open, although reading writes. */
  lemma BreakerRefines(l: Limits, g: Gauge, p: Phase, now: real)
    requires l.threshold >= 1 && Refines(l, g, p)
    ensures Checked(l, g, now).1 == CheckedPhase(l, p, now).1
    ensures Refines(l, Checked(l, g, now).0, CheckedPhase(l, p, now).0)
    ensures Refines(l, Failing(l, g, now), FailingPhase(l, p, now))
    ensures Refines(l, Succeeding(g), Closed(0))
  {}

  // -------------------------------------------------------------- failure rate

  /** A call by one of several callers that take turns: asked at one time, ended at another. */
  datatype Call = Call(asked: real, ended: real, fails: bool)

  /** The breaker after the calls, and when the admitted ones failed. No call succeeds. */
  function After(l: Limits, calls: seq<Call>): (Gauge, seq<real>) {
    if calls == [] then (Gauge(0, 0.0), [])
    else
      var (g, failed) := After(l, calls[..|calls| - 1]);
      var call := calls[|calls| - 1];
      var (checked, open) := Checked(l, g, call.asked);
      if open || !call.fails then (checked, failed)
      else (Failing(l, checked, call.ended), failed + [call.ended])
  }

  /** The call is refused exactly when the breaker is open within its window, or the row is at one of its caps. */
  lemma RefusedIff(l: Limits, g: Gauge, now: real, calls: nat, tokens: nat, maxCalls: nat, maxTokens: nat)
    ensures var refused := Admitted(Checked(l, g, now).1, calls, tokens, maxCalls, maxTokens);
            if g.failures >= l.threshold && now - g.openedAt <= l.resetSeconds then refused == Some(Unavailable)
            else if calls >= maxCalls || tokens > maxTokens then refused == Some(BudgetExhausted)
            else refused == None
  {}

  /** A call of generate that does not succeed is a call of this kind, asked at its check and ended after its last request. */
  lemma GenerateIsACall(l: Limits, calls: seq<Call>, replies: nat -> Reply, clock: nat -> real, attempts: nat,
                        used: nat, tokens: nat, maxCalls: nat, maxTokens: nat)
    requires NonDecreasing(clock)
    requires !Attempts(replies, 0, attempts).outcome.Parsed?
    ensures var g, tried := After(l, calls).0, Attempts(replies, 0, attempts);
            var refused := Admitted(Checked(l, g, clock(0)).1, used, tokens, maxCalls, maxTokens).Some?;
            var call := Call(clock(0), clock(tried.made), !refused && tried.outcome.Unavailable?);
            && call.asked <= call.ended
            && After(l, calls + [call]).0 == Generated(l, g, replies, clock, refused, attempts)
  {
    var g, tried := After(l, calls).0, Attempts(replies, 0, attempts);
    RefusedIff(l, g, clock(0), used, tokens, maxCalls, maxTokens);
    var refused := Admitted(Checked(l, g, clock(0)).1, used, tokens, maxCalls, maxTokens).Some?;
    var call := Call(clock(0), clock(tried.made), !refused && tried.outcome.Unavailable?);
    assert (calls + [call])[..|calls|] == calls;
  }

  ghost predicate TakingTurns(calls: seq<Call>) {
    && (forall i :: 0 <= i < |calls| ==> calls[i].asked <= calls[i].ended)
    && (forall i :: 0 <= i < |calls| - 1 ==> calls[i].ended <= calls[i + 1].asked)
  }

  ghost predicate Spaced(l: Limits, failed: seq<real>) {
    && (forall i :: 0 <= i < |failed| - 1 ==> failed[i] <= failed[i + 1])
    && (forall i :: 0 <= i < |failed| - 1 && i + 1 >= l.threshold ==> failed[i] + l.resetSeconds < failed[i + 1])
  }

  /** The gauge counts failures up to the threshold; from then on it is open, or past the window. */
  ghost predicate Tracks(l: Limits, g: Gauge, failed: seq<real>, now: real)
    requires l.threshold >= 1
  {
    var n := |failed|;
    && (n > 0 ==> failed[n - 1] <= now)
    && if n < l.threshold then g.failures == n
       else if g.failures >= l.threshold then g.openedAt == failed[n - 1]
       else g.failures == l.threshold - 1 && failed[n - 1] + l.resetSeconds < now
  }

  lemma OneCallIsSpaced(l: Limits, g: Gauge, failed: seq<real>, now: real, call: Call)
    requires l.threshold >= 1 && Spaced(l, failed) && Tracks(l, g, failed, now) && now <= call.asked <= call.ended
    ensures var (checked, open) := Checked(l, g, call.asked);
            if open || !call.fails then Tracks(l, checked, failed, call.ended)
            else Spaced(l, failed + [call.ended]) && Tracks(l, Failing(l, checked, call.ended), failed + [call.ended], call.ended)
  {}

  lemma {:induction false} FailuresAreSpaced(l: Limits, calls: seq<Call>)
    requires l.threshold >= 1 && TakingTurns(calls)
    ensures var (g, failed) := After(l, calls);
            Spaced(l, failed) && (calls != [] ==> Tracks(l, g, failed, calls[|calls| - 1].ended))
            && (calls == [] ==> (g, failed) == (Gauge(0, 0.0), []))
  {
    if calls != [] {
      var init, call := calls[..|calls| - 1], calls[|calls| - 1];
      assert TakingTurns(init);
      FailuresAreSpaced(l, init);
      var (g, failed) := After(l, init);
      OneCallIsSpaced(l, g, failed, if init == [] then call.asked else init[|init| - 1].ended, call);
    }
  }

  lemma {:induction false} SpacedCount(l: Limits, failed: seq<real>, i: nat, j: nat)
    requires l.threshold >= 1 && l.resetSeconds >= 0.0 && Spaced(l, failed)
    requires i <= j < |failed|
    ensures failed[i] <= failed[j]
    ensures j - i + 1 > l.threshold ==>
              (j - i + 1 - l.threshold) as real * l.resetSeconds < failed[j] - failed[i]
    decreases j
  {
    if i < j {
      SpacedCount(l, failed, i, j - 1);
      assert failed[j - 1] <= failed[j - 1 + 1];
      var n := j - i - l.threshold;
      if n >= 0 {
        assert failed[j - 1] + l.resetSeconds < failed[j - 1 + 1];
        OneMore(n, l.resetSeconds);
      }
    }
  }

  lemma OneMore(n: nat, r: real)
    ensures (n + 1) as real * r == n as real * r + r
    ensures n == 0 ==> n as real * r == 0.0
  {
    assert (n + 1) as real == n as real + 1.0;
  }

  /**
   Callers that take turns and never succeed: from failure number `threshold` on, each comes more than
   the reset window after the one before, so a stretch of failures from the i-th to the j-th lasts more
   than the window times their number beyond the threshold.
   */
  lemma FailureRateIsBounded(l: Limits, calls: seq<Call>, i: nat, j: nat)
    requires l.threshold >= 1 && l.resetSeconds >= 0.0 && TakingTurns(calls)
    requires i <= j < |After(l, calls).1|
    ensures var failed := After(l, calls).1;
            && (i >= l.threshold && i >= 1 ==> failed[i - 1] + l.resetSeconds < failed[i])
            && (j - i + 1 > l.threshold ==>
                  (j - i + 1 - l.threshold) as real * l.resetSeconds < failed[j] - failed[i])
  {
    FailuresAreSpaced(l, calls);
    var failed := After(l, calls).1;
    SpacedCount(l, failed, i, j);
    if i >= 1 && i >= l.threshold { assert failed[i - 1] + l.resetSeconds < failed[i - 1 + 1]; }
  }

  /** The gauge after a series of checks none of which has an outcome yet, and how many were let through. */
  function Checks(l: Limits, g: Gauge, times: seq<real>): (Gauge, nat)
    decreases |times|
  {
    if times == [] then (g, 0)
    else
      var (checked, open) := Checked(l, g, times[0]);
      var (last, admitted) := Checks(l, checked, times[1..]);
      (last, admitted + if open then 0 else 1)
  }

  lemma {:induction false} BelowThresholdAdmitsAll(l: Limits, g: Gauge, times: seq<real>)
    requires g.failures < l.threshold
    ensures Checks(l, g, times) == (g, |times|)
  {
    if times != [] { BelowThresholdAdmitsAll(l, g, times[1..]); }
  }

  /**
   Half-open lets a single probe through only when callers take turns: once the window has passed,
   every check made before the first outcome is recorded is admitted, however many there are.
   */
  lemma HalfOpenAdmitsEveryConcurrentCaller(l: Limits, g: Gauge, times: seq<real>)
    requires g.failures >= l.threshold && times != [] && times[0] - g.openedAt > l.resetSeconds
    ensures Checks(l, g, times).1 == |times|
    ensures Checks(l, g, times).1 <= 1 <==> |times| <= 1
  {
    BelowThresholdAdmitsAll(l, Checked(l, g, times[0]).0, times[1..]);
  }

  // ------------------------------------------------------------------ one call

  /** A reply after which another attempt is made, if any is left. */
  predicate Retried(r: Reply) {
    match r
    case ApiError(retryable) => retryable
    case Answered(_, truncated, parses) => truncated || !parses
  }

  /** The reply at which the loop stops with an answer that parses. */
  ghost predicate Delivers(replies: nat -> Reply, i: nat, j: nat, attempts: nat) {
    && i <= j < attempts
    && (forall k: nat :: i <= k < j ==> Retried(replies(k)))
    && replies(j).Answered? && replies(j).parses && (!replies(j).truncated || j == attempts - 1)
  }

  /** An answer comes back exactly when some attempt parses and every earlier one asked for another try. */
  lemma {:induction false} ParsedIffDelivered(replies: nat -> Reply, i: nat, attempts: nat)
    ensures Attempts(replies, i, attempts).outcome.Parsed? <==> exists j: nat :: Delivers(replies, i, j, attempts)
    decreases attempts - i
  {
    if i < attempts {
      ParsedIffDelivered(replies, i + 1, attempts);
      var here := replies(i);
      if j: nat :| Delivers(replies, i, j, attempts) {
        if j > i { assert Delivers(replies, i + 1, j, attempts); }
      }
      if Attempts(replies, i, attempts).outcome.Parsed? {
        if Delivers(replies, i, i, attempts) {
        } else {
          var j: nat :| Delivers(replies, i + 1, j, attempts);
          assert Delivers(replies, i, j, attempts);
        }
      }
    }
  }

  /** The answers among these requests, and the tokens they used. */
  function Answers(replies: nat -> Reply, from: nat, to: nat): nat
    decreases to - from
  {
    if from >= to then 0 else (if replies(from).Answered? then 1 else 0) + Answers(replies, from + 1, to)
  }

  function Spent(replies: nat -> Reply, from: nat, to: nat): nat
    decreases to - from
  {
    if from >= to then 0 else (if replies(from).Answered? then replies(from).tokens else 0) + Spent(replies, from + 1, to)
  }

  /**
   What one call amounts to: requests as long as each asks for another try, every answer among them billed
   with its tokens, and an outcome that the last request decides.
   */
  lemma {:induction false} AttemptsMean(replies: nat -> Reply, i: nat, attempts: nat)
    requires i <= attempts
    ensures var tried := Attempts(replies, i, attempts);
            && i <= tried.made <= attempts && (i < attempts ==> i < tried.made)
            && (forall k: nat :: i <= k < tried.made - 1 ==> Retried(replies(k)))
            && tried.calls == Answers(replies, i, tried.made) && tried.tokens == Spent(replies, i, tried.made)
    ensures var tried := Attempts(replies, i, attempts);
            tried.made > i ==>
              match replies(tried.made - 1)
              case ApiError(retryable) => tried.outcome == Unavailable && (!retryable || tried.made == attempts)
              case Answered(_, truncated, parses) =>
                if parses then tried.outcome == Parsed && (!truncated || tried.made == attempts)
                else tried.outcome == Malformed && tried.made == attempts
    ensures i == attempts ==> Attempts(replies, i, attempts).outcome == Malformed
    decreases attempts - i
  {
    if i < attempts { AttemptsMean(replies, i + 1, attempts); }
  }

  /** One call records at most `attempts` answers, each with at most the largest response. */
  lemma {:induction false} AttemptsAreBounded(replies: nat -> Reply, i: nat, attempts: nat, maxResponse: nat)
    requires i <= attempts
    requires forall k: nat :: replies(k).Answered? ==> replies(k).tokens <= maxResponse
    ensures var tried := Attempts(replies, i, attempts);
            tried.calls <= attempts - i && tried.tokens <= tried.calls * maxResponse
    decreases attempts - i
  {
    if i < attempts {
      AttemptsAreBounded(replies, i + 1, attempts, maxResponse);
      var rest := Attempts(replies, i + 1, attempts);
      OneMoreResponse(rest.calls, maxResponse);
      if replies(i).Answered? { assert replies(i).tokens <= maxResponse; }
    }
  }

  lemma OneMoreResponse(calls: nat, maxResponse: nat)
    ensures (calls + 1) * maxResponse == calls * maxResponse + maxResponse
    ensures calls == 0 ==> calls * maxResponse == 0
  {}
}
