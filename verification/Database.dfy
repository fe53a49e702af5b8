/**
 The submissions table, which is also the job queue. Every method is one SQL statement, executed
 atomically; what it does to one row is given by a function, which the queue protocol reuses.
 */
module Database {
  import opened Prelude
  import opened States

  type Id = nat
  type WorkerId = nat

  datatype Row = Row(
    key: string, state: State, verdict: Option<string>, result: Option<string>, error: Option<string>,
    tokensUsed: nat, llmCalls: nat, attempts: nat,
    leaseExpiresAt: Option<real>, workerId: Option<WorkerId>,
    createdAt: real, finishedAt: Option<real>)

  const LEASE_SECONDS := 120.0
  const MAX_ATTEMPTS := 3

  // -------------------------------------------------------------- one row

  function Fresh(key: string, now: real): Row {
    Row(key, Submitted, None, None, None, 0, 0, 0, None, None, now, None)
  }

  /** Not finished, and not under a lease that is still running. */
  predicate Claimable(row: Row, now: real) {
    !Terminal(row.state) && (row.leaseExpiresAt.None? || row.leaseExpiresAt.value < now)
  }

  function Claimed(row: Row, worker: WorkerId, now: real, lease: real): Row {
    row.(leaseExpiresAt := Some(now + lease), workerId := Some(worker), attempts := row.attempts + 1)
  }

  function Renewed(row: Row, now: real): Row { row.(leaseExpiresAt := Some(now + LEASE_SECONDS)) }

  function Moved(row: Row, state: State): Row { row.(state := state) }

  function Finished(row: Row, state: State, verdict: Option<string>, result: string, error: string, now: real): Row {
    row.(state := state, verdict := verdict, result := Some(result),
         error := if error == "" then None else Some(error),
         finishedAt := Some(now), leaseExpiresAt := None)
  }

  /** Back to the queue. The verdict, the attempts and the usage counters stay as they are. */
  function Requeued(row: Row): Row {
    row.(state := Submitted, error := None, result := None, leaseExpiresAt := None, finishedAt := None)
  }

  function Charged(row: Row, tokens: nat): Row {
    row.(tokensUsed := row.tokensUsed + tokens, llmCalls := row.llmCalls + 1)
  }

  // ------------------------------------------------------------- the table

  /** `id` is the claimable row created first among those not locked by another transaction. */
  ghost predicate Oldest(rows: map<Id, Row>, locked: set<Id>, now: real, id: Id) {
    && id in rows && id !in locked && Claimable(rows[id], now)
    && forall other :: other in rows && other !in locked && Claimable(rows[other], now) ==>
         rows[id].createdAt <= rows[other].createdAt
  }

  lemma {:induction false} OldestExists(rows: map<Id, Row>, ids: set<Id>)
    requires ids != {} && ids <= rows.Keys
    ensures exists id :: id in ids && forall other :: other in ids ==> rows[id].createdAt <= rows[other].createdAt
    decreases |ids|
  {
    var x :| x in ids;
    var rest := ids - {x};
    if rest == {} {
      assert ids == {x};
    } else {
      OldestExists(rows, rest);
      var y :| y in rest && forall other :: other in rest ==> rows[y].createdAt <= rows[other].createdAt;
      var best := if rows[x].createdAt <= rows[y].createdAt then x else y;
      assert best in ids && forall other :: other in ids ==> other == x || other in rest;
    }
  }

  class Submissions {
    var rows: map<Id, Row>

    constructor ()
      ensures rows == map[]
    {
      rows := map[];
    }

    /** INSERT ... ON CONFLICT (idempotency_key) DO NOTHING, under an id not used before. */
    method Insert(key: string, id: Id, now: real) returns (created: bool)
      requires id !in rows
      modifies this
      ensures created <==> forall other :: other in old(rows) ==> old(rows)[other].key != key
      ensures rows == if created then old(rows)[id := Fresh(key, now)] else old(rows)
      ensures created ==> rows[id] == Row(key, Submitted, None, None, None, 0, 0, 0, None, None, now, None)
    {
      created := forall other :: other in rows ==> rows[other].key != key;
      if created { rows := rows[id := Fresh(key, now)]; }
    }

    /** UPDATE ... WHERE id = $1 AND state = 'DEGRADED' */
    method Requeue(id: Id) returns (retried: bool)
      modifies this
      ensures retried <==> id in old(rows) && old(rows)[id].state == Degraded
      ensures rows == if retried then old(rows)[id := Requeued(old(rows)[id])] else old(rows)
      ensures retried ==>
        rows[id] == old(rows)[id].(state := Submitted, error := None, result := None, leaseExpiresAt := None, finishedAt := None)
    {
      retried := id in rows && rows[id].state == Degraded;
      if retried { rows := rows[id := Requeued(rows[id])]; }
    }

    /** SKIP LOCKED: `locked` are the rows other transactions hold at that moment. */
    method ClaimJob(worker: WorkerId, lease: real, now: real, locked: set<Id>) returns (claimed: Option<Id>)
      modifies this
      ensures claimed.None? ==> rows == old(rows)
      ensures claimed.None? ==> forall id :: id in rows && id !in locked ==> !Claimable(rows[id], now)
      ensures claimed.Some? ==> Oldest(old(rows), locked, now, claimed.value)
      ensures claimed.Some? ==>
        rows == old(rows)[claimed.value := Claimed(old(rows)[claimed.value], worker, now, lease)]
      ensures claimed.Some? ==>
        var row := old(rows)[claimed.value];
        && row.state !in {Done, Failed, Degraded} && (row.leaseExpiresAt.Some? ==> row.leaseExpiresAt.value < now)
        && rows[claimed.value] ==
             row.(leaseExpiresAt := Some(now + lease), workerId := Some(worker), attempts := row.attempts + 1)
      ensures forall id ::
        (id in old(rows) && id !in locked && old(rows)[id].state !in {Done, Failed, Degraded}
         && (old(rows)[id].leaseExpiresAt == None || old(rows)[id].leaseExpiresAt.value < now)) ==>
          claimed.Some? && old(rows)[claimed.value].createdAt <= old(rows)[id].createdAt
    {
      var ids := set id | id in rows && id !in locked && Claimable(rows[id], now);
      assert forall id :: id in rows && id !in locked && Claimable(rows[id], now) ==> id in ids;
      if ids == {} { return None; }
      OldestExists(rows, ids);
      var id :| id in ids && forall other :: other in ids ==> rows[id].createdAt <= rows[other].createdAt;
      claimed := Some(id);
      rows := rows[id := Claimed(rows[id], worker, now, lease)];
    }

    method RenewLease(id: Id, now: real)
      modifies this
      ensures rows == if id in old(rows) then old(rows)[id := Renewed(old(rows)[id], now)] else old(rows)
      ensures id in rows ==> rows[id] == old(rows)[id].(leaseExpiresAt := Some(now + 120.0))
    {
      if id in rows { rows := rows[id := Renewed(rows[id], now)]; }
    }

    method SetState(id: Id, state: State)
      modifies this
      ensures rows == if id in old(rows) then old(rows)[id := Moved(old(rows)[id], state)] else old(rows)
      ensures id in rows ==> rows[id] == old(rows)[id].(state := state)
    {
      if id in rows { rows := rows[id := Moved(rows[id], state)]; }
    }

    method Finish(id: Id, state: State, verdict: Option<string>, result: string, error: string, now: real)
      modifies this
      ensures rows == if id in old(rows)
                      then old(rows)[id := Finished(old(rows)[id], state, verdict, result, error, now)]
                      else old(rows)
      ensures id in rows ==>
        rows[id] == old(rows)[id].(state := state, verdict := verdict, result := Some(result), leaseExpiresAt := None,
                                   finishedAt := Some(now), error := if error == "" then None else Some(error))
    {
      if id in rows { rows := rows[id := Finished(rows[id], state, verdict, result, error, now)]; }
    }

    /** Reads the counters without touching them; an unknown row reads as zero. */
    method GetUsage(id: Id) returns (tokens: nat, calls: nat)
      ensures id in rows ==> tokens == rows[id].tokensUsed && calls == rows[id].llmCalls
      ensures id !in rows ==> tokens == 0 && calls == 0
    {
      tokens, calls := 0, 0;
      if id in rows { tokens, calls := rows[id].tokensUsed, rows[id].llmCalls; }
    }

    /** One completed model call. */
    method AddUsage(id: Id, tokens: nat)
      requires id in rows
      modifies this
      ensures rows == old(rows)[id := Charged(old(rows)[id], tokens)]
      ensures rows[id] ==
        old(rows)[id].(tokensUsed := old(rows)[id].tokensUsed + tokens, llmCalls := old(rows)[id].llmCalls + 1)
    {
      rows := rows[id := Charged(rows[id], tokens)];
    }
  }
}
