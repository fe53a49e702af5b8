/** One turn of a worker, and one submission by a client that nobody disturbs, over the table itself. */
module Worker {
  import opened Prelude
  import opened States
  import opened Database
  import opened IntakeKey

  predicate Known(rows: map<Id, Row>, key: string) { exists id :: id in rows && rows[id].key == key }

  /** Insert, or serve the row that has the key, requeued if it was degraded. */
  method CreateSubmission(db: Submissions, hash: string -> string, intake: Intake, version: string, unused: Id, now: real)
    returns (id: Id, created: bool)
    requires unused !in db.rows
    modifies db
    ensures var key := Key(hash, intake, version);
            if !Known(old(db.rows), key) then
              created && id == unused && db.rows == old(db.rows)[id := Fresh(key, now)]
            else
              && id in old(db.rows) && old(db.rows)[id].key == key
              && (created <==> old(db.rows)[id].state == Degraded)
              && db.rows == if created then old(db.rows)[id := Requeued(old(db.rows)[id])] else old(db.rows)
  {
    var key := Key(hash, intake, version);
    created := db.Insert(key, unused, now);
    if created { return unused, true; }
    id :| id in db.rows && db.rows[id].key == key;
    if db.rows[id].state == Degraded { created := db.Requeue(id); }
  }

  datatype Turn = Nothing | GivenUp(id: Id) | Job(id: Id, attempt: nat)

  /**
   Claim a row. One that was claimed too often is failed; any other is left under its new lease for an
   attempt with the number that came with the claim.
   */
  method TakeTurn(db: Submissions, worker: WorkerId, lease: real, now: real, later: real, locked: set<Id>) returns (turn: Turn)
    modifies db
    ensures turn.Nothing? ==>
      db.rows == old(db.rows) && forall id :: id in db.rows && id !in locked ==> !Claimable(db.rows[id], now)
    ensures !turn.Nothing? ==>
      && Oldest(old(db.rows), locked, now, turn.id)
      && (turn.GivenUp? <==> old(db.rows)[turn.id].attempts >= MAX_ATTEMPTS)
      && var claimed := Claimed(old(db.rows)[turn.id], worker, now, lease);
      && (turn.Job? ==> turn.attempt == claimed.attempts <= MAX_ATTEMPTS && db.rows == old(db.rows)[turn.id := claimed])
      && (turn.GivenUp? ==>
            db.rows == old(db.rows)[turn.id := Finished(claimed, Failed, None, "ERROR", "max attempts exceeded", later)])
  {
    var claimed := db.ClaimJob(worker, lease, now, locked);
    if claimed.None? { return Nothing; }
    var id := claimed.value;
    var attempt := db.rows[id].attempts;
    if attempt > MAX_ATTEMPTS {
      db.Finish(id, Failed, None, "ERROR", "max attempts exceeded", later);
      return GivenUp(id);
    }
    turn := Job(id, attempt);
  }
}
