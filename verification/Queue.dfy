/**
 The leased-job protocol as a transition system with a clock. The table of submissions is the shared
 state, and each SQL statement is one step of a worker or of a client of the API. Nothing here checks
 who owns a row: renew_lease, set_state and finish update whatever row they are given.
 */
module Queue {
  import opened Prelude
  import opened States
  import opened Database

  type ClientId = nat

  const BEAT_PERIOD := LEASE_SECONDS / 3.0

  /** The lease taken with a claim, for a given wall-clock budget in seconds. */
  function ClaimLease(maxWallSeconds: nat): real { Max(120, maxWallSeconds / 2) as real }

  /** `maxDelay` bounds how late a heartbeat lands; `lateFaults` admits an exception after the final write. */
  datatype Env = Env(
    claimLease: real, timely: bool, maxDelay: real, lateFaults: bool,
    maxCalls: nat, maxTokens: nat, retries: nat, maxResponse: nat)

  /** `beat` is when this worker last claimed or renewed; `left` counts the attempts left in a model call. */
  datatype Worker =
    | Idle
    | Handling(id: Id, attempt: nat, beat: real)
    | Running(id: Id, attempt: nat, beat: real, left: nat)
    | Closing(id: Id, attempt: nat)
    | Dead
  {
    predicate Executing() { Handling? || Running? }
    predicate Busy() { Handling? || Running? || Closing? }
  }

  /** Where a call of create_submission is between its statements. */
  datatype Client =
    | Asking(key: string)
    | Looking(key: string)
    | Retrying(key: string, id: Id)
    | Told(key: string, id: Id, created: bool)

  /**
   History of one row, recorded only to state theorems: the attempts that started, the model attempts
   each has in flight, the attempts that wrote a terminal state, and the episodes of degradation.
   */
  datatype Ledger = Ledger(
    started: set<nat>, starts: nat, flight: map<nat, nat>, closed: multiset<nat>,
    degradations: nat, requeues: nat, winners: set<ClientId>)

  datatype System = System(
    now: real, rows: map<Id, Row>, workers: map<WorkerId, Worker>,
    clients: map<ClientId, Client>, ledgers: map<Id, Ledger>)
  {
    function Pc(w: WorkerId): Worker { if w in workers then workers[w] else Idle }

    predicate Holds(w: WorkerId) { Pc(w).Busy() && Pc(w).id in rows && Pc(w).id in ledgers }

    function Held(w: WorkerId): Cell
      requires Holds(w)
    {
      Cell(Pc(w), rows[Pc(w).id], ledgers[Pc(w).id])
    }

    function SetPc(w: WorkerId, pc: Worker): System { this.(workers := workers[w := pc]) }

    function SetRow(id: Id, row: Row): System { this.(rows := rows[id := row]) }

    function SetLedger(id: Id, ledger: Ledger): System { this.(ledgers := ledgers[id := ledger]) }

    function SetClient(c: ClientId, client: Client): System { this.(clients := clients[c := client]) }
  }

  const Initial := System(0.0, map[], map[], map[], map[])

  /** What a worker does to the row it holds, one statement at a time. */
  datatype Move =
    | GiveUp
    | Begin
    | Write(state: State)
    | BeginCall
    | Charge(tokens: nat)
    | EndCall
    | Renew
    | Finish(state: State, verdict: Option<string>, result: string, error: string)
    | LateFault(error: string)

  datatype Step =
    | Arrive(c: ClientId, key: string)
    | TryInsert(c: ClientId, id: Id)
    | Look(c: ClientId, id: Id)
    | TryRequeue(c: ClientId)
    | Claim(w: WorkerId, id: Id)
    | Work(w: WorkerId, move: Move)
    | Leave(w: WorkerId)
    | Crash(w: WorkerId)
    | StrayRenew(id: Id)
    | Tick(duration: real)

  // ------------------------------------------------------------ a worker's row

  /** A worker together with the row it holds and that row's history. */
  datatype Cell = Cell(pc: Worker, row: Row, ledger: Ledger)

  predicate CanMove(env: Env, now: real, c: Cell, move: Move) {
    match move
    case GiveUp => c.pc.Handling? && c.pc.attempt > MAX_ATTEMPTS
    case Begin => c.pc.Handling? && c.pc.attempt <= MAX_ATTEMPTS
    case Write(state) => c.pc.Running? && !Terminal(state)
    case BeginCall => c.pc.Running? && c.pc.left == 0 && c.row.llmCalls < env.maxCalls && c.row.tokensUsed <= env.maxTokens
    case Charge(tokens) => c.pc.Running? && c.pc.left > 0 && tokens <= env.maxResponse
    case EndCall => c.pc.Running?
    case Renew => c.pc.Running? && now >= c.pc.beat + BEAT_PERIOD
    case Finish(state, _, _, _) => c.pc.Running? && Terminal(state)
    case LateFault(_) => c.pc.Closing? && env.lateFaults
  }

  function Do(env: Env, now: real, c: Cell, move: Move): Cell
    requires CanMove(env, now, c, move)
  {
    match move
    case GiveUp => Close(c.(pc := Idle), c.pc.attempt, Failed, None, "ERROR", "max attempts exceeded", now)
    case Begin =>
      var a := c.pc.attempt;
      c.(pc := Running(c.pc.id, a, c.pc.beat, 0),
         ledger := c.ledger.(started := c.ledger.started + {a}, starts := c.ledger.starts + 1,
                             flight := c.ledger.flight[a := 0]))
    case Write(state) => c.(row := Moved(c.row, state))
    case BeginCall => Fly(c, env.retries)
    case Charge(tokens) => Fly(c.(row := Charged(c.row, tokens)), c.pc.left - 1)
    case EndCall => Fly(c, 0)
    case Renew => c.(pc := Running(c.pc.id, c.pc.attempt, now, c.pc.left), row := Renewed(c.row, now))
    case Finish(state, verdict, result, error) =>
      Close(c.(pc := Closing(c.pc.id, c.pc.attempt)), c.pc.attempt, state, verdict, result, error, now)
    case LateFault(error) => Close(c, c.pc.attempt, Failed, None, "ERROR", error, now)
  }

  /** The model call of this worker has `left` attempts to go. */
  function Fly(c: Cell, left: nat): Cell
    requires c.pc.Running?
  {
    c.(pc := Running(c.pc.id, c.pc.attempt, c.pc.beat, left),
       ledger := c.ledger.(flight := c.ledger.flight[c.pc.attempt := left]))
  }

  /** Writing a terminal state; entering Degraded from another state opens an episode. */
  function Close(c: Cell, attempt: nat, state: State, verdict: Option<string>, result: string, error: string, now: real): Cell {
    var episode := if state.Degraded? && !c.row.state.Degraded? then 1 else 0;
    c.(row := Finished(c.row, state, verdict, result, error, now),
       ledger := c.ledger.(degradations := c.ledger.degradations + episode, closed := c.ledger.closed + multiset{attempt}))
  }

  // -------------------------------------------------------------------- steps

  predicate KeyTaken(rows: map<Id, Row>, key: string) {
    exists id :: id in rows && rows[id].key == key
  }

  /** `now` is not later than the moment by which a timely heartbeat of every executing worker lands. */
  predicate InTime(env: Env, s: System, now: real) {
    forall w :: w in s.workers && s.workers[w].Executing() ==>
      now <= s.workers[w].beat + BEAT_PERIOD + env.maxDelay
  }

  predicate Enabled(env: Env, s: System, step: Step) {
    match step
    case Arrive(c, _) => c !in s.clients
    case TryInsert(c, id) =>
      c in s.clients && s.clients[c].Asking? && (KeyTaken(s.rows, s.clients[c].key) || id !in s.rows)
    case Look(c, id) =>
      c in s.clients && s.clients[c].Looking? && id in s.rows && s.rows[id].key == s.clients[c].key
    case TryRequeue(c) =>
      c in s.clients && s.clients[c].Retrying? && s.clients[c].id in s.rows && s.clients[c].id in s.ledgers
    case Claim(w, id) => s.Pc(w).Idle? && id in s.rows && Claimable(s.rows[id], s.now)
    case Work(w, move) => s.Holds(w) && CanMove(env, s.now, s.Held(w), move)
    case Leave(w) => s.Pc(w).Busy()
    case Crash(w) => !s.Pc(w).Dead?
    case StrayRenew(id) => id in s.rows
    case Tick(duration) => duration > 0.0 && (env.timely ==> InTime(env, s, s.now + duration))
  }

  function Apply(env: Env, s: System, step: Step): System
    requires Enabled(env, s, step)
  {
    match step
    case Arrive(c, key) => s.SetClient(c, Asking(key))
    case TryInsert(c, id) =>
      var key := s.clients[c].key;
      if KeyTaken(s.rows, key) then s.SetClient(c, Looking(key))
      else s.SetRow(id, Fresh(key, s.now)).SetLedger(id, NewLedger(c)).SetClient(c, Told(key, id, true))
    case Look(c, id) =>
      var key := s.clients[c].key;
      s.SetClient(c, if s.rows[id].state.Degraded? then Retrying(key, id) else Told(key, id, false))
    case TryRequeue(c) =>
      var key, id := s.clients[c].key, s.clients[c].id;
      if s.rows[id].state.Degraded? then
        s.SetRow(id, Requeued(s.rows[id])).SetLedger(id, Reopened(s.ledgers[id], c)).SetClient(c, Told(key, id, true))
      else s.SetClient(c, Told(key, id, false))
    case Claim(w, id) =>
      s.SetRow(id, Claimed(s.rows[id], w, s.now, env.claimLease))
       .SetPc(w, Handling(id, s.rows[id].attempts + 1, s.now))
    case Work(w, move) =>
      var id, c := s.Pc(w).id, Do(env, s.now, s.Held(w), move);
      s.SetRow(id, c.row).SetLedger(id, c.ledger).SetPc(w, c.pc)
    case Leave(w) => s.SetPc(w, Idle)
    case Crash(w) => s.SetPc(w, Dead)
    case StrayRenew(id) => s.SetRow(id, Renewed(s.rows[id], s.now))
    case Tick(duration) => s.(now := s.now + duration)
  }

  function NewLedger(c: ClientId): Ledger { Ledger({}, 0, map[], multiset{}, 0, 0, {c}) }

  function Reopened(ledger: Ledger, c: ClientId): Ledger {
    ledger.(requeues := ledger.requeues + 1, winners := ledger.winners + {c})
  }

  /** What a worker's move does to its row, statement by statement. */
  lemma MovesAreStatements(env: Env, now: real, c: Cell, move: Move)
    requires CanMove(env, now, c, move)
    ensures var next := Do(env, now, c, move).row;
            match move
            case GiveUp =>
              next == c.row.(state := Failed, verdict := None, result := Some("ERROR"), error := Some("max attempts exceeded"),
                             leaseExpiresAt := None, finishedAt := Some(now))
            case Write(state) => next == c.row.(state := state)
            case Charge(tokens) => next == c.row.(tokensUsed := c.row.tokensUsed + tokens, llmCalls := c.row.llmCalls + 1)
            case Renew => next == c.row.(leaseExpiresAt := Some(now + 120.0))
            case Finish(state, verdict, result, error) =>
              next == c.row.(state := state, verdict := verdict, result := Some(result),
                             error := if error == "" then None else Some(error),
                             leaseExpiresAt := None, finishedAt := Some(now))
            case LateFault(_) => next.state == Failed && next.leaseExpiresAt == None
            case _ => next == c.row
  {}

  /** And what every step does to the table and the clock: one statement on one row, or nothing. */
  lemma StepsAreStatements(env: Env, s: System, step: Step)
    requires Enabled(env, s, step)
    ensures var t := Apply(env, s, step);
            && t.now == s.now + (if step.Tick? then step.duration else 0.0)
            && match step
               case TryInsert(c, id) =>
                 t.rows == if exists other :: other in s.rows && s.rows[other].key == s.clients[c].key then s.rows
                           else s.rows[id := Row(s.clients[c].key, Submitted, None, None, None, 0, 0, 0, None, None, s.now, None)]
               case TryRequeue(c) =>
                 var id := s.clients[c].id;
                 t.rows == if s.rows[id].state != Degraded then s.rows
                           else s.rows[id := s.rows[id].(state := Submitted, error := None, result := None,
                                                         leaseExpiresAt := None, finishedAt := None)]
               case Claim(w, id) =>
                 t.rows == s.rows[id := s.rows[id].(leaseExpiresAt := Some(s.now + env.claimLease), workerId := Some(w),
                                                    attempts := s.rows[id].attempts + 1)]
               case Work(w, move) => t.rows == s.rows[s.Pc(w).id := Do(env, s.now, s.Held(w), move).row]
               case StrayRenew(id) => t.rows == s.rows[id := s.rows[id].(leaseExpiresAt := Some(s.now + 120.0))]
               case _ => t.rows == s.rows
  {}

  // --------------------------------------------------------------------- runs

  datatype Run = Start | Then(before: Run, step: Step)

  predicate Legal(env: Env, run: Run) {
    match run
    case Start => true
    case Then(before, step) => Legal(env, before) && Enabled(env, At(env, before), step)
  }

  /** The state a legal run leads to. */
  function At(env: Env, run: Run): System {
    match run
    case Start => Initial
    case Then(before, step) =>
      if Enabled(env, At(env, before), step) then Apply(env, At(env, before), step) else At(env, before)
  }

  /** The run that continues `run` with these steps. */
  function Extend(run: Run, steps: seq<Step>): Run {
    if steps == [] then run else Then(Extend(run, steps[..|steps| - 1]), steps[|steps| - 1])
  }

  /** The worker that takes the step, if it is a worker's. */
  function Actor(step: Step): Option<WorkerId> {
    match step
    case Claim(w, _) => Some(w)
    case Work(w, _) => Some(w)
    case Leave(w) => Some(w)
    case Crash(w) => Some(w)
    case _ => None
  }

  predicate Apart(v: Worker, w: Worker) { v.Executing() && w.Executing() ==> v.id != w.id }

  /** No row is executed by two workers. */
  predicate Exclusive(s: System) {
    forall v, w :: v in s.workers && w in s.workers && v != w ==> Apart(s.workers[v], s.workers[w])
  }
}
