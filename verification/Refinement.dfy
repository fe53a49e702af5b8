/** What the executor and the model client do to a row are runs of the queue protocol. */
module Refinement {
  import opened Prelude
  import opened States
  import opened Executor
  import opened Traces
  import opened ModelClient
  import opened ClientTheorems
  import Queue

  // --------------------------------------------------------------- model calls

  /** The tokens of the answers that the attempts from the i-th on receive, in order. */
  function Receipts(replies: nat -> Reply, i: nat, attempts: nat): seq<nat>
    decreases attempts - i
  {
    if i >= attempts then []
    else
      match replies(i)
      case ApiError(retryable) => if retryable && i < attempts - 1 then Receipts(replies, i + 1, attempts) else []
      case Answered(tokens, truncated, parses) =>
        if !(truncated && i < attempts - 1) && parses then [tokens] else [tokens] + Receipts(replies, i + 1, attempts)
  }

  function Total(receipts: seq<nat>): nat { if receipts == [] then 0 else receipts[0] + Total(receipts[1..]) }

  lemma {:induction false} ReceiptsAddUp(replies: nat -> Reply, i: nat, attempts: nat, maxResponse: nat)
    requires forall k: nat :: replies(k).Answered? ==> replies(k).tokens <= maxResponse
    ensures var receipts, tried := Receipts(replies, i, attempts), Attempts(replies, i, attempts);
            && |receipts| == tried.calls && Total(receipts) == tried.tokens
            && forall t :: t in receipts ==> t <= maxResponse
    decreases attempts - i
  {
    if i < attempts {
      ReceiptsAddUp(replies, i + 1, attempts, maxResponse);
      var rest := Receipts(replies, i + 1, attempts);
      if replies(i).Answered? {
        assert replies(i).tokens <= maxResponse;
        assert ([replies(i).tokens] + rest)[1..] == rest;
      }
    }
  }

  /** The worker records these answers one after the other. */
  function Charging(run: Queue.Run, w: Database.WorkerId, receipts: seq<nat>): Queue.Run
    decreases |receipts|
  {
    if receipts == [] then run
    else Charging(Queue.Then(run, Queue.Work(w, Queue.Charge(receipts[0]))), w, receipts[1..])
  }

  lemma {:induction false} ChargingIsLegal(env: Queue.Env, run: Queue.Run, w: Database.WorkerId, receipts: seq<nat>)
    requires Queue.Legal(env, run) && Queue.At(env, run).Holds(w) && Queue.At(env, run).Pc(w).Running?
    requires |receipts| <= Queue.At(env, run).Pc(w).left
    requires forall t :: t in receipts ==> t <= env.maxResponse
    ensures Queue.Legal(env, Charging(run, w, receipts))
    ensures var s, t := Queue.At(env, run), Queue.At(env, Charging(run, w, receipts));
            && t.Holds(w) && t.Pc(w) == s.Pc(w).(left := s.Pc(w).left - |receipts|)
            && t.Held(w).row == Billed(s.Held(w).row, |receipts|, Total(receipts))
    decreases |receipts|
  {
    if receipts != [] {
      var next := Queue.Then(run, Queue.Work(w, Queue.Charge(receipts[0])));
      assert receipts[0] in receipts && forall t :: t in receipts[1..] ==> t in receipts;
      assert Queue.Legal(env, next);
      ChargingIsLegal(env, next, w, receipts[1..]);
    }
  }

  /**
   An admitted call bills the row exactly as the protocol does when the worker begins a call, records
   each answer, and ends the call: the number of retries is never exceeded.
   */
  lemma CallIsARun(env: Queue.Env, run: Queue.Run, w: Database.WorkerId, replies: nat -> Reply)
    requires Queue.Legal(env, run) && Queue.At(env, run).Holds(w) && Queue.At(env, run).Pc(w).Running?
    requires Queue.At(env, run).Pc(w).left == 0
    requires forall k: nat :: replies(k).Answered? ==> replies(k).tokens <= env.maxResponse
    requires Admitted(false, Queue.At(env, run).Held(w).row.llmCalls, Queue.At(env, run).Held(w).row.tokensUsed,
                      env.maxCalls, env.maxTokens).None?
    ensures var begun := Queue.Then(run, Queue.Work(w, Queue.BeginCall));
            var last := Queue.Then(Charging(begun, w, Receipts(replies, 0, env.retries)), Queue.Work(w, Queue.EndCall));
            var tried := Attempts(replies, 0, env.retries);
            && Queue.Legal(env, last) && Queue.At(env, last).Holds(w)
            && Queue.At(env, last).Held(w).row == Billed(Queue.At(env, run).Held(w).row, tried.calls, tried.tokens)
            && tried.calls <= env.retries
  {
    ReceiptsAddUp(replies, 0, env.retries, env.maxResponse);
    AttemptsAreBounded(replies, 0, env.retries, env.maxResponse);
    var begun := Queue.Then(run, Queue.Work(w, Queue.BeginCall));
    assert Queue.Legal(env, begun);
    ChargingIsLegal(env, begun, w, Receipts(replies, 0, env.retries));
  }

  // --------------------------------------------------------------- one attempt

  /** What happens before the worker's next step: the others' steps and its own heartbeats, chosen from the run so far. */
  type Others = Queue.Run -> seq<Queue.Step>

  predicate Aside(w: Database.WorkerId, step: Queue.Step) {
    Queue.Actor(step) != Some(w) || step == Queue.Work(w, Queue.Renew)
  }

  ghost function Pause(env: Queue.Env, others: Others, run: Queue.Run, w: Database.WorkerId): Queue.Run {
    var steps := others(run);
    var longer := Queue.Extend(run, steps);
    if Queue.Legal(env, longer) && forall i :: 0 <= i < |steps| ==> Aside(w, steps[i]) then longer else run
  }

  /** The worker executes its row, with this many attempts of a model call to go. */
  ghost predicate AtWork(env: Queue.Env, run: Queue.Run, w: Database.WorkerId, left: nat) {
    Queue.Legal(env, run) && Queue.At(env, run).Holds(w) && Queue.At(env, run).Pc(w).Running? && Queue.At(env, run).Pc(w).left == left
  }

  ghost predicate SameAttempt(env: Queue.Env, run: Queue.Run, later: Queue.Run, w: Database.WorkerId)
    requires Queue.At(env, run).Pc(w).Running? && Queue.At(env, later).Pc(w).Running?
  {
    && Queue.At(env, later).Pc(w).id == Queue.At(env, run).Pc(w).id
    && Queue.At(env, later).Pc(w).attempt == Queue.At(env, run).Pc(w).attempt
  }

  lemma OneAside(env: Queue.Env, s: Queue.System, step: Queue.Step, w: Database.WorkerId)
    requires Queue.Enabled(env, s, step) && Aside(w, step) && s.Holds(w) && s.Pc(w).Running?
    ensures var t := Queue.Apply(env, s, step);
            && t.Holds(w) && t.Pc(w).Running?
            && t.Pc(w).left == s.Pc(w).left && t.Pc(w).id == s.Pc(w).id && t.Pc(w).attempt == s.Pc(w).attempt
  {}

  lemma {:induction false} AsideKeeps(env: Queue.Env, run: Queue.Run, steps: seq<Queue.Step>, w: Database.WorkerId, left: nat)
    requires AtWork(env, run, w, left) && Queue.Legal(env, Queue.Extend(run, steps))
    requires forall i :: 0 <= i < |steps| ==> Aside(w, steps[i])
    ensures AtWork(env, Queue.Extend(run, steps), w, left) && SameAttempt(env, run, Queue.Extend(run, steps), w)
  {
    if steps != [] {
      var init := steps[..|steps| - 1];
      AsideKeeps(env, run, init, w, left);
      OneAside(env, Queue.At(env, Queue.Extend(run, init)), steps[|steps| - 1], w);
    }
  }

  lemma PauseKeeps(env: Queue.Env, others: Others, run: Queue.Run, w: Database.WorkerId, left: nat)
    requires AtWork(env, run, w, left)
    ensures AtWork(env, Pause(env, others, run, w), w, left) && SameAttempt(env, run, Pause(env, others, run, w), w)
  {
    var steps := others(run);
    if Queue.Legal(env, Queue.Extend(run, steps)) && forall i :: 0 <= i < |steps| ==> Aside(w, steps[i]) {
      AsideKeeps(env, run, steps, w, left);
    }
  }

  /** The worker's own steps that keep it at work. */
  lemma OwnStep(env: Queue.Env, run: Queue.Run, w: Database.WorkerId, left: nat, move: Queue.Move)
    requires AtWork(env, run, w, left)
    requires Queue.CanMove(env, Queue.At(env, run).now, Queue.At(env, run).Held(w), move)
    requires move.Write? || move.BeginCall? || move.Charge? || move.EndCall?
    ensures var next := Queue.Then(run, Queue.Work(w, move));
            && AtWork(env, next, w, if move.Write? then left else if move.BeginCall? then env.retries
                                    else if move.Charge? then left - 1 else 0)
            && SameAttempt(env, run, next, w)
  {}

  /** What an attempt does that the queue sees: writing a state, and calling the model, which may be refused. */
  datatype Act = Say(state: State) | Ask(open: bool, replies: nat -> Reply)

  /** The states among these acts, in order. */
  function Said(acts: seq<Act>): seq<State> {
    if acts == [] then [] else (if acts[0].Say? then [acts[0].state] else []) + Said(acts[1..])
  }

  ghost function Billing(env: Queue.Env, others: Others, run: Queue.Run, w: Database.WorkerId, receipts: seq<nat>): Queue.Run
    decreases |receipts|
  {
    if receipts == [] then run
    else Billing(env, others, Queue.Then(Pause(env, others, run, w), Queue.Work(w, Queue.Charge(receipts[0]))), w, receipts[1..])
  }

  /** The call passes the check at this moment. */
  ghost predicate PassesCheck(env: Queue.Env, run: Queue.Run, w: Database.WorkerId, open: bool) {
    && Queue.At(env, run).Holds(w)
    && var row := Queue.At(env, run).Held(w).row;
    && Admitted(open, row.llmCalls, row.tokensUsed, env.maxCalls, env.maxTokens).None?
  }

  ghost function Acting(env: Queue.Env, others: Others, run: Queue.Run, w: Database.WorkerId, act: Act): Queue.Run {
    var ready := Pause(env, others, run, w);
    match act
    case Say(state) => Queue.Then(ready, Queue.Work(w, Queue.Write(state)))
    case Ask(open, replies) =>
      if PassesCheck(env, ready, w, open) then
        var begun := Queue.Then(ready, Queue.Work(w, Queue.BeginCall));
        var billed := Billing(env, others, begun, w, Receipts(replies, 0, env.retries));
        Queue.Then(Pause(env, others, billed, w), Queue.Work(w, Queue.EndCall))
      else ready
  }

  ghost function Performing(env: Queue.Env, others: Others, run: Queue.Run, w: Database.WorkerId, acts: seq<Act>): Queue.Run
    decreases |acts|
  {
    if acts == [] then run else Performing(env, others, Acting(env, others, run, w, acts[0]), w, acts[1..])
  }

  lemma {:induction false} BillingIsLegal(env: Queue.Env, others: Others, run: Queue.Run, w: Database.WorkerId, left: nat, receipts: seq<nat>)
    requires AtWork(env, run, w, left) && |receipts| <= left
    requires forall t :: t in receipts ==> t <= env.maxResponse
    ensures AtWork(env, Billing(env, others, run, w, receipts), w, left - |receipts|)
    ensures SameAttempt(env, run, Billing(env, others, run, w, receipts), w)
    decreases |receipts|
  {
    if receipts != [] {
      PauseKeeps(env, others, run, w, left);
      var ready := Pause(env, others, run, w);
      assert receipts[0] in receipts && forall t :: t in receipts[1..] ==> t in receipts;
      OwnStep(env, ready, w, left, Queue.Charge(receipts[0]));
      BillingIsLegal(env, others, Queue.Then(ready, Queue.Work(w, Queue.Charge(receipts[0]))), w, left - 1, receipts[1..]);
    }
  }

  /** The act is one of an attempt: an open state, or a call whose answers are within the largest response. */
  ghost predicate Possible(env: Queue.Env, act: Act) {
    match act
    case Say(state) => !Terminal(state)
    case Ask(_, replies) => forall k: nat :: replies(k).Answered? ==> replies(k).tokens <= env.maxResponse
  }

  lemma AskIsLegal(env: Queue.Env, others: Others, ready: Queue.Run, w: Database.WorkerId, open: bool, replies: nat -> Reply)
    requires AtWork(env, ready, w, 0) && PassesCheck(env, ready, w, open) && Possible(env, Ask(open, replies))
    ensures var begun := Queue.Then(ready, Queue.Work(w, Queue.BeginCall));
            var billed := Billing(env, others, begun, w, Receipts(replies, 0, env.retries));
            var next := Queue.Then(Pause(env, others, billed, w), Queue.Work(w, Queue.EndCall));
            AtWork(env, next, w, 0) && SameAttempt(env, ready, next, w)
  {
    var receipts := Receipts(replies, 0, env.retries);
    ReceiptsAddUp(replies, 0, env.retries, env.maxResponse);
    AttemptsAreBounded(replies, 0, env.retries, env.maxResponse);
    OwnStep(env, ready, w, 0, Queue.BeginCall);
    var begun := Queue.Then(ready, Queue.Work(w, Queue.BeginCall));
    BillingIsLegal(env, others, begun, w, env.retries, receipts);
    var billed := Billing(env, others, begun, w, receipts);
    PauseKeeps(env, others, billed, w, env.retries - |receipts|);
    OwnStep(env, Pause(env, others, billed, w), w, env.retries - |receipts|, Queue.EndCall);
  }

  lemma ActingIsLegal(env: Queue.Env, others: Others, run: Queue.Run, w: Database.WorkerId, act: Act)
    requires AtWork(env, run, w, 0) && Possible(env, act)
    ensures AtWork(env, Acting(env, others, run, w, act), w, 0) && SameAttempt(env, run, Acting(env, others, run, w, act), w)
  {
    PauseKeeps(env, others, run, w, 0);
    var ready := Pause(env, others, run, w);
    match act
    case Say(state) => OwnStep(env, ready, w, 0, Queue.Write(state));
    case Ask(open, replies) =>
      if PassesCheck(env, ready, w, open) { AskIsLegal(env, others, ready, w, open, replies); }
  }

  lemma {:induction false} PerformingIsLegal(env: Queue.Env, others: Others, run: Queue.Run, w: Database.WorkerId, acts: seq<Act>)
    requires AtWork(env, run, w, 0) && forall i :: 0 <= i < |acts| ==> Possible(env, acts[i])
    ensures AtWork(env, Performing(env, others, run, w, acts), w, 0)
    ensures SameAttempt(env, run, Performing(env, others, run, w, acts), w)
    decreases |acts|
  {
    if acts != [] {
      ActingIsLegal(env, others, run, w, acts[0]);
      PerformingIsLegal(env, others, Acting(env, others, run, w, acts[0]), w, acts[1..]);
    }
  }

  lemma {:induction false} SaidOf(acts: seq<Act>, i: nat)
    requires i < |acts| && acts[i].Say?
    ensures acts[i].state in Said(acts)
    decreases |acts|
  {
    if i > 0 { SaidOf(acts[1..], i - 1); }
  }

  ghost predicate Answers(env: Queue.Env, acts: seq<Act>) {
    forall i :: 0 <= i < |acts| && acts[i].Ask? ==> Possible(env, acts[i])
  }

  /**
   One attempt as a whole is a run of the protocol: whatever it writes and calls, in whatever order, and
   whatever the others and its own heartbeat do before each of its steps, none of these steps is ever
   impossible, and the attempt is closed by one finish that sets the terminal state of its row.
   */
  lemma AttemptIsARun(env: Queue.Env, others: Others, run: Queue.Run, w: Database.WorkerId, acts: seq<Act>, end: State, result: string)
    requires AtWork(env, run, w, 0) && IsAttemptTrace(Said(acts)) && Answers(env, acts) && Terminal(end)
    ensures var ready := Pause(env, others, Performing(env, others, run, w, acts), w);
            var last := Queue.Then(ready, Queue.Work(w, Queue.Finish(end, None, result, "")));
            && Queue.Legal(env, last) && Queue.At(env, last).Holds(w) && Queue.At(env, last).Pc(w).Closing?
            && Queue.At(env, last).Pc(w).id == Queue.At(env, run).Pc(w).id
            && Queue.At(env, last).Pc(w).attempt == Queue.At(env, run).Pc(w).attempt
            && Queue.At(env, last).Held(w).row.state == end
  {
    AttemptIsLinked(Said(acts));
    forall i | 0 <= i < |acts| ensures Possible(env, acts[i]) {
      if acts[i].Say? { SaidOf(acts, i); }
    }
    PerformingIsLegal(env, others, run, w, acts);
    PauseKeeps(env, others, Performing(env, others, run, w, acts), w, 0);
  }
}
