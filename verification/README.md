# A model of the stress agent and proofs about it

The stress agent judges a competitive-programming submission, and when it gives a wrong answer looks for a
small input that shows it. Submissions are rows of a Postgres table, which is also the job queue: workers
lease rows, renew the lease from a heartbeat, and walk one attempt through compiling, judging, authoring a
brute force, validating it, stress running and explaining. This project models that behaviour and proves
what it guarantees.

| part | files |
|---|---|
| the leased-job protocol, with a clock and crashing workers | `Database`, `Worker`, `Queue`, `QueueSafety`, `QueueReruns`, `QueueBudget`, `QueueIntake`, `QueueLimits`, `IntakeKey` |
| the stress and shrink search inside the container | `Programs`, `Driver`, `DriverTheorems` |
| the stages, the gates and the executor of one attempt | `Stages`, `Calibration`, `Executor`, `OutcomeTheorems`, `States`, `Traces`, `Examples` |
| the model client: budget, retries, circuit breaker | `ModelClient`, `ClientTheorems` |
| the replay log and its tail | `ReplayLog` |
| the link between attempts and the protocol | `Refinement` |
| the worked partition example | `Partition` |

How the pieces fit: `Database` says what each SQL statement does to a row, in functions that `Queue` reuses
as the steps of a transition system; theorems about the queue hold on every legal run, that is, every finite
interleaving of callers, workers, crashes, heartbeats and clock ticks. The executor and the driver are
imperative; each method is proved against a function or predicate of its inputs (`Judged`, `Calibrated`,
`PlanOf`, `ShrinkGoal`, `Truthful`, `Attempts`), and the theorems are about those. `Refinement` shows that
what one attempt and one model call do to a row are runs of the queue. The executions of programs are
uninterpreted deterministic functions; the model's answers, the exceptions, the wall clock and the delivery
of driver events are arbitrary inputs.

## Where the code and its comments differ

The model follows the code.

- The lease protocol (src/stressagent/db.py:153-182) has no owner or state guard. A row is executed by one
  worker at a time, and done or failed rows stay so, exactly when heartbeats land within two thirds of the
  lease after they are due and nothing raises after the final write (`QueueLimits.ExclusiveIffSound`,
  `QueueLimits.PermanentIffSound`). Such an exception, for instance from tearing down the sandbox, reaches the
  handler of src/stressagent/pipeline/run.py:44-57 and overwrites the row.
- src/stressagent/config.py:22-24 calls the budgets hard caps. They are looked at once per call, before up to
  three attempts. With exclusive execution the recorded calls exceed their cap by at most the retries less one,
  and stay within it exactly when nothing is retried or no call is allowed; the tokens stay within theirs
  exactly when the calls that fit cannot use it up (`QueueBudget.BudgetHolds`, `QueueLimits.CallsAreCappedIff`,
  `QueueLimits.TokensAreCappedIff`).
- `can_transition` (src/stressagent/states.py:47-50) has no caller, and the executor jumps over `ANALYZING`
  and `SHRINKING`, which it never writes. Consecutive states lie in the transitive closure
  (`Traces.AttemptStaysInClosure`); an attempt takes declared edges only exactly when the tests end it, or
  when an external verdict sends it to a search that fails before its first revision (`Traces.DeclaredIff`).
- Halving the size knob is said to reach 1 from any starting point (src/stressagent/pipeline/stages.py:28-29).
  Ten probes do so below 1024, and from a larger size succeed exactly when size/512 is sustainable
  (`Calibration.TenProbesReach`).
- The sentinel `TOO_SLOW` is meant to stay internal (src/stressagent/pipeline/stages.py:31-33). It goes back to
  the author, instead of a description to repair with, exactly when the programs compile and the first probe,
  at size 1, times out (`Stages.Context.Validate`, `Examples.SentinelReachesTheAuthor`).
- The half-open breaker is said to let one probe through (src/stressagent/llm/client.py:80). It admits every
  caller that asks before the first outcome, so at most one exactly when at most one asks
  (`ClientTheorems.HalfOpenAdmitsEveryConcurrentCaller`).
- Two writers of the replay log are said not to pick the same number (src/stressagent/db.py:230-231). The
  unique constraint turns an insert away exactly when another commit came between computing its number and
  committing it (`ReplayLog.RefusedIffOvertaken`).
- The event stream reads the steps before the state, so `done` may come without the last of them. What was
  sent is a prefix of the log, and all of it exactly as long as no step is committed after the last listing
  (`ReplayLog.StreamIsAPrefix`, `ReplayLog.DoneMissesAStep`).
- Fields joined with NUL are distinguished exactly when they hold none (`IntakeKey.CollidesIffNul`). Postgres
  refuses NUL in its TEXT columns, so only `idempotency_key` by itself can receive such a field.
- A wrong answer found by the local tests keeps its counterexample in every attempt that has an outcome
  (`OutcomeTheorems.LocalWrongAnswerIsShown`), and an attempt has none, and ends failed, exactly when one of the
  operations it came to raised (`Executor.RunSubmission`). One that raises is reading a driver line longer than the
  64 KiB that asyncio's reader allows by default (src/stressagent/runner/docker_runner.py:190-194), as for a large
  generated input: the attempt ends failed although a failing test was in hand (`Examples.AttemptLosesItsTest`).
- The enumeration of problems/example-partition/correct.cpp starts from the total, so it is optimal exactly
  when the total is not negative (`Partition.BestSplit`).

## Model

| member | source | states |
|---|---|---|
| QueueSafety.LeaseAlways | src/stressagent/db.py:125-160 | On every run with timely heartbeats and no late fault, each executing worker's row is open under a lease that lasts a full period beyond its last heartbeat, and no row is executed by two workers, whatever stray renewals, crashes and resubmissions happen. |
| QueueSafety.ClaimIsExclusive | src/stressagent/pipeline/run.py:27-34 | With such heartbeats, a worker never claims a row another live worker is still executing. |
| QueueSafety.TerminalStepKept | src/stressagent/db.py:163-182 | No step takes a row out of a terminal state, except the requeueing of a degraded row to submitted, although no update looks at the state. |
| QueueSafety.DoneAndFailedArePermanent | src/stressagent/states.py:31 | Whatever steps follow, a row that is done or failed keeps that state. |
| QueueLimits.ExclusiveIffSound | src/stressagent/pipeline/run.py:27-60 | Exclusive execution on every run holds if and only if heartbeats are timely with a delay of at most two thirds of the lease and nothing fails after the final write. |
| QueueLimits.PermanentIffSound | src/stressagent/db.py:163-182 | Done and failed rows keep their state in every continuation of every run if and only if heartbeats are timely with a delay of at most two thirds of the lease and nothing fails after the final write. |
| QueueLimits.LateHeartbeatBreaksExclusivity | src/stressagent/pipeline/run.py:27-34 | If a heartbeat may land later than that, there is a run on which a row is executed by two workers. |
| QueueLimits.LateHeartbeatOverwritesDone | src/stressagent/db.py:169-182 | If a heartbeat may land later than that, there is a run on which a superseded worker fails the row that its successor finished as done. |
| QueueLimits.LateFaultBreaksExclusivity | src/stressagent/pipeline/run.py:44-57 | If an exception may follow the final write, there is a run through a degraded requeue on which a row is executed by two workers, even with punctual heartbeats. |
| QueueLimits.LateFaultOverwritesDone | src/stressagent/pipeline/run.py:51-57 | With such an exception there is a run on which a done row becomes failed and one attempt has written two terminal states. |
| QueueLimits.ClaimLeaseIsLongEnough | src/stressagent/pipeline/run.py:246-247 | The lease taken with a claim is at least the renewed one, for every wall-clock budget: 120 seconds below a budget of 242, and half the budget from there on. |
| Queue.StepsAreStatements | src/stressagent/db.py:78-182 | Every step of the protocol is one of the statements, column by column, on one row, or leaves the table as it is; only ticks move the clock. |
| Queue.MovesAreStatements | src/stressagent/db.py:153-213 | Every move of a worker changes the columns of its own row that its statement names, to the values it names. |
| QueueLimits.CallCapIsReached | src/stressagent/config.py:22-26 | There is a run whose recorded calls reach the bound max_calls - 1 + retries. |
| QueueLimits.CallsAreCappedIff | src/stressagent/llm/client.py:153-154 | With exclusive execution the recorded calls stay within the configured cap on every run if and only if no call is retried or none is allowed. |
| QueueLimits.TokensAreCappedIff | src/stressagent/llm/client.py:155-156 | With exclusive execution the tokens stay within their cap on every run if and only if the calls that fit, at the largest response, do not exceed it. |
| QueueBudget.BudgetHolds | src/stressagent/llm/client.py:147-204 | With exclusive execution, a row's recorded calls never exceed max_calls - 1 + retries, nor its tokens the cap plus retries maximal responses, over all attempts, crashes and degraded requeues. |
| QueueBudget.SolventAlways | src/stressagent/db.py:185-213 | The invariant behind it: what a call in flight may still record always fits under both bounds. |
| QueueBudget.TokensNeverPassTheCeiling | src/stressagent/db.py:200-213 | Without any assumption on timing, the recorded tokens stay below the ceiling of calls times the largest response. |
| QueueBudget.TokensFitTheCalls | src/stressagent/llm/client.py:201-204 | With exclusive execution the recorded tokens stay below the bound on calls times the largest response. |
| QueueReruns.BookedAlways | src/stressagent/worker.py:27-46 | On every run, whatever the timing, busy workers hold distinct attempt numbers of their row, and the books of starts, calls in flight and terminal writes add up. |
| QueueReruns.RerunsAreBounded | src/stressagent/worker.py:31-45 | The pipeline starts at most three times for a row, each under another attempt number, whatever the leases, zombies and resubmissions. |
| QueueReruns.ClaimsGrow | src/stressagent/db.py:140-146 | A claim takes an attempt number above those that started before and above those held by workers still busy with the row. |
| QueueReruns.ExhaustedRowsFail | src/stressagent/worker.py:31-43 | On every run, when a row with three attempts is claimed again, the claimant can always fail it, and whatever the others do meanwhile its next step is that, leaving or crashing; no other row changes. |
| QueueReruns.OneTerminalWritePerAttempt | src/stressagent/pipeline/run.py:37-60 | Without late faults no attempt of a row writes two terminal states, even among zombies. |
| QueueReruns.CallsNeverPassTheCeiling | src/stressagent/llm/client.py:153-156 | Without any assumption on timing, the recorded calls stay below the cap plus three times the retries. |
| QueueIntake.IntakeIsIdempotent | src/stressagent/db.py:78-115 | On every interleaving of callers there is at most one row per key, and two answered callers got the same row exactly when their keys agree. |
| QueueIntake.OneWinnerPerEpisode | src/stressagent/db.py:100-115 | With timely heartbeats, however many callers resubmit at once, those told that a run was created are exactly one for the insertion and one for each ended episode of degradation. |
| QueueIntake.AtMostOneWinnerPerEpisode | src/stressagent/db.py:102-115 | On every run, whatever the timing, they are at most that many: no episode has two winners. |
| QueueIntake.FairAlways | src/stressagent/db.py:67-115 | The invariant behind both: keys are unique, callers remember rows that exist under their key, and the winners match the requeues. |
| IntakeKey.SplitUndoesJoin | src/stressagent/db.py:58-60 | Splitting at NUL recovers the joined fields when none contains NUL. |
| IntakeKey.KeyIdentifiesSubmission | src/stressagent/db.py:47-61 | With a hash that does not collide, two NUL-free submissions have the same key exactly when all fields and the pipeline version agree. |
| IntakeKey.CollidesIffNul | src/stressagent/db.py:58-60 | With a hash that does not collide, some other submission of the same version has this one's key if and only if one of its fields holds NUL. |
| IntakeKey.NulFieldsCollide | src/stressagent/db.py:58-60 | Two given submissions with NUL in a field have the same key, for every hash. |
| Database.Submissions.Insert | src/stressagent/db.py:81-94 | A row is created exactly when no row has the key; otherwise the table is unchanged. |
| Database.Submissions.Requeue | src/stressagent/db.py:102-114 | Only a degraded row goes back to submitted; it loses error, result, lease and finish time and keeps verdict, attempts and counters. |
| Database.Submissions.ClaimJob | src/stressagent/db.py:125-150 | The claimed row is the oldest unlocked one that is not finished and not under a running lease, there is none if nothing is claimed, and no other row changes. |
| Database.Submissions.RenewLease | src/stressagent/db.py:153-160 | The lease of the row, whoever holds it and whatever its state, ends 120 seconds from now; nothing else changes. |
| Database.Submissions.SetState | src/stressagent/db.py:163-166 | The state is overwritten without looking at the old one; nothing else changes. |
| Database.Submissions.Finish | src/stressagent/db.py:169-182 | State, verdict, result and error are written, the lease is dropped and the finish time set, in that row only. |
| Database.Submissions.GetUsage | src/stressagent/db.py:185-197 | The counters of the row, or zero for an unknown one, without touching them. |
| Database.Submissions.AddUsage | src/stressagent/db.py:200-213 | One call more and its tokens, in that row only. |
| Database.OldestExists | src/stressagent/db.py:130-139 | Any non-empty set of rows has one that was created first. |
| Worker.CreateSubmission | src/stressagent/db.py:67-115 | An undisturbed caller gets a fresh row for a new key, else the row that has the key, requeued and reported as created exactly when it was degraded. |
| Worker.TakeTurn | src/stressagent/worker.py:31-68 | A turn claims the oldest claimable row; it is failed exactly when it had three attempts, and otherwise handed on with its next attempt number. |
| ReplayLog.NumbersAreConsecutive | src/stressagent/db.py:219-246 | For all interleavings of writers the committed numbers are at every moment 1..n in commit order. |
| ReplayLog.GrowsIff | src/stressagent/db.py:219-246 | The log only grows at its end, and between two moments it is unchanged exactly when no commit landed. |
| ReplayLog.RefusedIffOvertaken | migrations/001_init.sql:79 | On every run an insert is turned away if and only if another commit landed between computing its number and committing it; otherwise it is appended. |
| ReplayLog.OverlappingWritersCollide | src/stressagent/db.py:230-231 | After any run, of two writers that both compute a number before either commits, only the first to commit gets in. |
| ReplayLog.Events | src/stressagent/api/main.py:150-179 | The steps sent are the listing of the last round, each once and in order, and done follows the first round that sees a terminal row. |
| ReplayLog.PollsGrow | src/stressagent/api/main.py:153-169 | What the rounds list while the writers go on is growing and consecutively numbered, as the loop needs it. |
| ReplayLog.StreamIsAPrefix | src/stressagent/api/main.py:150-179 | For every run of the writers and every placement of the two reads of each round, what the stream sent is a numbered prefix of the log from then on, and the whole log exactly as long as no commit lands after its last listing. |
| ReplayLog.DoneMissesAStep | src/stressagent/api/main.py:169-178 | After any run, a step committed between the two reads of a round, before the terminal state is written, is left out by a stream that ends there. |
| Programs.TokensAcrossSpace | sandbox/driver.py:88-94 | A separator splits a text into two that are tokenised independently. |
| Programs.NoTokensIffBlank | sandbox/driver.py:149 | Output without tokens is exactly output that strips to nothing. |
| Programs.TrailingSpaceIsInvisible | sandbox/driver.py:88-94 | Spacing at the end of an output makes no difference to the comparison. |
| Programs.TokensOfUnwords | src/stressagent/pipeline/stages.py:36-37 | Tokenising recovers exactly the words that were printed, so different words compare as different. |
| Programs.SpacesByCode | sandbox/driver.py:88-94 | The separators are the characters with codes 9 to 13 and 28 to 32. |
| Driver.ProbeIsGenuine | sandbox/driver.py:144-174 | A reported mismatch carries the seed and size it was given, an input the generator printed and the validator accepts, an answer the brute force printed, and a failure of the user's program on it: a timeout, a nonzero exit, or an output that the checker does not accept, or, without a checker, whose tokens differ. |
| Driver.GenuineIsProbed | sandbox/driver.py:144-174 | Every such mismatch at a seed and size is the one that the probe there reports. |
| Driver.ProbeJudges | sandbox/driver.py:110-131 | On a legal input with a reference answer a program that ends normally goes unreported if and only if the checker exits with 0 on its output, or, without a checker, its tokens are those of the reference. |
| Driver.ShrinkCandidates | sandbox/driver.py:177-190 | The list built step by step is the dense sizes followed by the geometric ones, and the final filter drops none. |
| Driver.CandidatesWithin | sandbox/driver.py:185-190 | The candidates increase strictly and lie in [1, found). |
| Driver.CandidatesDense | sandbox/driver.py:185 | Every size up to min(found - 1, 30) is a candidate. |
| Driver.GeometricIsLogarithmic | sandbox/driver.py:187-189 | From a step on, k geometric candidates need (step - 1) * 3^(k-1) <= (bound - 2) * 2^(k-1). |
| Driver.CandidatesAreLogarithmic | sandbox/driver.py:177-190 | For a size above 31 the k candidates beyond the dense ones satisfy 30 * 3^(k-1) <= (found - 2) * 2^(k-1). |
| Driver.TrySeeds | sandbox/driver.py:207-215 | One size: the first disagreement under its seeds, unless the deadline was passed; the probes made are counted, each begun in time, with one reading of the clock for each. |
| Driver.Shrink | sandbox/driver.py:193-216 | A result other than the mismatch found is the first disagreement in candidate order, even if the inner break left the outer loop running, and the steps are then all seeds of the smaller candidates and those up to its own; no probe begins after the deadline, and with time enough nothing is missed. |
| Driver.RoundLoop | sandbox/driver.py:271-301 | The final event is truthful: every round before it was begun in time and quiet, a mismatch is that of the last round or its shrunk form, and the two ways to end empty mean what they say; the log reports every 25th round and no other, and no earlier event is final. |
| Driver.Conclude | sandbox/driver.py:282-299 | Shrinking gets thirty seconds from the find or from the end of the budget, whichever is earlier: it begins no probe after that, and reaches its goal if none of the readings it may make is later. |
| Driver.ProbesAreProduct | sandbox/driver.py:203-212 | The bound on the probes of shrinking is the number of candidate sizes times the seeds. |
| DriverTheorems.ShrinkIsMinimal | sandbox/driver.py:193-216 | A shrunk mismatch is genuine, at a candidate size below the one found; every smaller candidate size was silent under all its seeds, and its own size under the earlier ones. |
| DriverTheorems.ShrinkApproximates | sandbox/driver.py:177-216 | If of the sizes up to the one found exactly those from m on fail, shrinking in time returns m when m <= 31 and at most 1.5 * (m - 1) otherwise, whatever size the bug was found at. |
| DriverTheorems.DriverApproximates | sandbox/driver.py:256-304 | The same for the mismatch that a whole driver run reports, with the threshold among the sizes it can pick, at whatever round it met the bug, if shrinking is not cut short. |
| DriverTheorems.PickSizeInRange | sandbox/driver.py:241-253 | Sizes stay between the bounds whatever the raw draw, and an empty range yields its lower end. |
| DriverTheorems.SweepIsDense | sandbox/driver.py:244-247 | Round i of the first half, which has at least one round, picks size_min + i, as long as that is in the range. |
| DriverTheorems.SweepGoesRound | sandbox/driver.py:244-247 | In the first half the sweep starts over at the end of the range: round i picks size_min + i modulo the number of sizes. |
| DriverTheorems.DrawIsClamped | sandbox/driver.py:249-253 | A later round picks the draw for the fraction of its number, i * 5761 modulo 10,000, moved to the nearer end when it is outside the range. |
| DriverTheorems.SweepIsComplete | sandbox/driver.py:271-301 | If round i of the first half meets a bug at size_min + i, a mismatch is reported no later than that round, unless the budget ran out before it could begin. |
| DriverTheorems.FractionPeriod | sandbox/driver.py:249-250 | Two rounds draw the same fraction exactly when they are a multiple of 10,000 rounds apart. |
| Stages.VerdictMeans | src/stressagent/pipeline/stages.py:51-77 | Accepted means that every test passes; wrong answer means that a counterexample comes along, and it is a judged test whose tokens differ. |
| Stages.JudgedMeans | src/stressagent/pipeline/stages.py:43-77 | The verdict is CE if and only if compiling did not exit with 0; otherwise AC if and only if all tests pass, the official ones if there are any and the samples if not, and TLE, RE or WA if and only if the first that does not pass timed out, exited with another code, or printed other tokens, which a wrong answer comes with. |
| Stages.VerdictIsUnique | src/stressagent/pipeline/stages.py:43-77 | These conditions single out one verdict and one counterexample. |
| Stages.Context.CompileAndJudge | src/stressagent/pipeline/stages.py:43-77 | The verdict is the one singled out by the exit code of the compiler and by what the program does on the tests in turn; only the sandbox or the database raises. |
| Stages.Context.Analyze | src/stressagent/pipeline/stages.py:82-119 | The constraints are those of an earlier attempt if there are any, else the model's with the size clamped, or its failure. |
| Stages.ConstraintsMean | src/stressagent/pipeline/stages.py:87-110 | Cached constraints are used as they are; fresh ones keep everything but a size outside 1 to 100,000, which is moved to the nearer end. |
| Stages.Context.Author | src/stressagent/pipeline/stages.py:125-169 | The programs are the model's reply to this revision's request: to write them for the constraints at first, and after a failed gate to repair the last ones, given that failure; or its failure is raised. |
| Stages.Context.AuthorChecker | src/stressagent/pipeline/stages.py:172-188 | The checker is the one the model wrote, or its failure. |
| Stages.Context.CalibrateSize | src/stressagent/pipeline/stages.py:287-322 | Halving in place gives the verdict and the size of at most ten probes from the size at the start. |
| Stages.Context.CheckSamples | src/stressagent/pipeline/stages.py:230-250 | True exactly when on every sample the brute force exits with 0 and prints the sample's tokens, or what the checker exits with 0 on if there is one. |
| Stages.SampleMeans | src/stressagent/pipeline/stages.py:231-248 | The same for one sample, over the texts of the brute force and the checker. |
| Stages.ProbeMeans | src/stressagent/pipeline/stages.py:253-284 | A size passes exactly when the generator, under seed 12345, prints a case that the validator accepts and the brute force ends well on within twelve seconds, and is too slow exactly when the last of these does not end. |
| Stages.CalibratedMeans | src/stressagent/pipeline/stages.py:287-322 | For any number of probes: every size passed over was above 1 and too slow; the answer is that of the first other size in the sequence of halvings, and a rejection if 1 is too slow or no probe is left. |
| Stages.GatesMean | src/stressagent/pipeline/stages.py:194-250 | A revision passes if and only if its programs are well-formed and handle size 1, one of the first ten halvings settles, and the brute force agrees with every sample; the size knob is then that halving. |
| Stages.ComplaintMeans | src/stressagent/pipeline/stages.py:194-250 | A revision that does not pass is turned away for the first gate in their order that it fails: syntax, size 1, calibration, samples. |
| Stages.Context.Validate | src/stressagent/pipeline/stages.py:194-250 | The sandbox holds this revision, the size is calibrated if the gates got that far, the answer is the first complaint of the gates in their order, a revision that passes is accepted at that size, and the bare sentinel comes back exactly when the programs compile and the probe at size 1 is too slow. |
| Stages.GatesAccept | src/stressagent/pipeline/stages.py:194-284 | After passing, the files are those of the revision, its programs are well-formed and handle size 1 and the calibrated size, and its brute force agrees with every sample, all in terms of what the three texts do. |
| Stages.Context.Follow | src/stressagent/pipeline/stages.py:363-389 | The fold stops at the first final event; progress overwrites the rounds, shrinking adds a step, the final event overwrites what it carries, and a stall keeps what was counted. |
| Stages.CountedAtEnd | src/stressagent/pipeline/stages.py:363-389 | Whatever was counted on the way, a final event that arrives settles the rounds, and with a mismatch the shrink steps. |
| Stages.CountedSoFar | src/stressagent/pipeline/stages.py:363-389 | When the stream breaks off, the rounds are those of the last progress and the steps the number of shrink events that arrived. |
| Stages.DeliveredFinal | src/stressagent/runner/docker_runner.py:177-219 | What arrives ends with the driver's final event exactly if it got that far, and otherwise with a stall or with nothing: a final event is never made up. |
| Stages.ArrivesInOrder | src/stressagent/runner/docker_runner.py:190-210 | Before a break exactly the first events arrive, unchanged and in order, and only silence adds an event. |
| Stages.Context.Stress | src/stressagent/pipeline/stages.py:338-396 | The result and the counts are what arrives of one truthful run of the driver in this sandbox, up to its first final event; reading a line that is too long before one arrives raises. |
| Stages.StressedIsGenuine | src/stressagent/pipeline/stages.py:376-389 | A mismatch that arrives is genuine in that sandbox, however the stream is cut. |
| Stages.StressedReports | src/stressagent/pipeline/stages.py:363-396 | If all events arrive, the result, the rounds and the shrink steps are those of the driver's final event. |
| Stages.TruthIsGenuine | sandbox/driver.py:286-299 | The mismatch of the final event is genuine, shrunk or not. |
| Calibration.CalibrationFitsWithinTwo | src/stressagent/pipeline/stages.py:287-322 | If the brute force sustains exactly the sizes up to a limit, calibration with n probes succeeds exactly when n - 1 halvings reach it, returns the first halving that does, and is at least half the limit if it halved at all. |
| Calibration.TenProbesReach | src/stressagent/pipeline/stages.py:28-29 | Ten probes succeed exactly when size/512 is within the limit, hence always below 1024. |
| Executor.Revise | src/stressagent/pipeline/run.py:214-219 | One revision asks for programs or for a repair, writes authoring then validating, installs what the model wrote, and hands on what the gates answer. |
| Executor.TryRevision | src/stressagent/pipeline/run.py:207-220 | One turn of the repair loop ends as planned or leaves the rest of the plan, with the complaint of the gates, to the next. |
| Executor.ReviseUntilAccepted | src/stressagent/pipeline/run.py:206-226 | The loop ends at the first accepted revision, when the model fails, out of time, or after three, with the states of whole revisions plus at most one cut short. |
| Executor.StressPlanned | src/stressagent/pipeline/run.py:225-226 | After an accepted revision the stress run happens in that revision's sandbox and completes the plan. |
| Executor.PlanAccepts | src/stressagent/pipeline/run.py:198-226 | The revision a plan accepts is the model's reply to its last request; it passed every gate, in a sandbox that holds exactly its files and the user's program. |
| Executor.PlanAcceptsLast | src/stressagent/pipeline/run.py:198-226 | The same for the plan of a submission from its start, with the checker the model wrote if one was asked for. |
| Executor.PlanMeans | src/stressagent/pipeline/run.py:206-226 | The model is asked for at most three revisions, each in time; the search gives up only after three or out of time; the first request is for the constraints, and an accepted later revision was asked for as the repair of the programs before it, given what the gates said of them. |
| Executor.BriefedMeans | src/stressagent/pipeline/run.py:199-203 | A checker is asked for exactly when several outputs are correct, and the first failure of the model ends the brief. |
| Executor.PlannedIsSound | src/stressagent/pipeline/stages.py:361-396 | A mismatch from a planned search is genuine in the very sandbox in which the plan accepted the model's last revision. |
| Executor.AuthorAndStress | src/stressagent/pipeline/run.py:198-226 | The search goes as the plan for the submission says and writes the trace of that plan, unless the sandbox or database raises. |
| Executor.FindCounterexample | src/stressagent/pipeline/run.py:162-195 | A short failing test is returned at once; a long one stands in whenever the search finds nothing or the model fails. |
| Executor.Conclude | src/stressagent/pipeline/run.py:101-159 | A mismatch ends done with its counterexample even if labelling fails, none ends done without one, a model failure ends degraded. |
| Executor.Pursue | src/stressagent/pipeline/run.py:80-101 | Only a wrong answer, local or external over a local acceptance, is searched; any other verdict ends done. |
| Executor.Execute | src/stressagent/pipeline/run.py:63-159 | The whole outcome of an attempt and the states it writes, or an exception after a prefix of them. |
| Executor.RunSubmission | src/stressagent/pipeline/run.py:37-60 | An attempt writes a trace of the grammar and then exactly one terminal state; it is failed if and only if an operation it came to raised or a driver line was too long to read, and otherwise has the determined outcome. |
| OutcomeTheorems.CounterexamplesAreSound | src/stressagent/pipeline/run.py:147-159 | Every reported counterexample is in a done report with a wrong answer, and is a judged test that differs, or an input that the generator of the last accepted revision printed, its validator accepts and its brute force, which passed every sample, answers as expected, on which the user's program fails. |
| OutcomeTheorems.VerdictIsReported | src/stressagent/pipeline/run.py:86-99 | The report carries the judge's verdict and nothing else and ends done, unless that is a wrong answer, or an acceptance that the external verdict WA, TLE or RE overrules: then it says wrong answer. |
| OutcomeTheorems.ShortTestIsShown | src/stressagent/pipeline/run.py:162-179 | A failing test of at most 400 characters is reported as it is, without a search. |
| OutcomeTheorems.LongTestStandsIn | src/stressagent/pipeline/run.py:180-195 | With a longer one the search is made as planned, and the test is reported if no revision is accepted. |
| OutcomeTheorems.LabelIsReported | src/stressagent/pipeline/run.py:137-150 | A reported counterexample carries the model's label, or none when the model gives none. |
| OutcomeTheorems.LocalWrongAnswerIsShown | src/stressagent/pipeline/run.py:162-195 | A wrong answer on the local tests ends done with a counterexample under any pattern of model failures, timeouts and exhausted revisions, in every attempt that no exception ends. |
| OutcomeTheorems.ChokedLosesTheTest | src/stressagent/runner/docker_runner.py:190-210 | An attempt that accepts a revision and whose driver's first line is too long to read has no outcome, whatever test was in hand. |
| OutcomeTheorems.DegradedExactlyWhen | src/stressagent/pipeline/run.py:86-118 | An attempt degrades if and only if an external verdict overrode a local acceptance and the model failed in the search. |
| OutcomeTheorems.StressDecides | src/stressagent/pipeline/run.py:162-195 | For every search that accepts a revision and gets all events: if the last round counted disagreed it is the first that did, and the counterexample is its mismatch or what shrinking makes of it; otherwise all were quiet, and it is the long failing test if there is one. |
| OutcomeTheorems.ReportIsTheDrivers | src/stressagent/pipeline/stages.py:363-396 | The counterexample, the rounds and the shrink steps of such a report are those of a truthful final event of the driver in the accepted sandbox, the failing test standing in only when that event carries no mismatch. |
| OutcomeTheorems.ReportIsMinimal | sandbox/driver.py:193-216 | End to end, for a wrong answer of the local tests and for an overridden one: when the last round disagreed and shrinking was not cut short, the reported counterexample is genuine, no larger than the mismatch met, and every smaller candidate size is silent under all its seeds. |
| OutcomeTheorems.ReportApproximates | sandbox/driver.py:177-216 | End to end in the same cases: if of the sizes from 1 to the calibrated one exactly those from m on fail, the reported counterexample has size m when m <= 31 and at most 1.5 * (m - 1) otherwise. |
| OutcomeTheorems.SweepIsDecisive | sandbox/driver.py:225-301 | End to end: a size in the range that is at most half the stress rounds is tried in the round of that number, and if that probe disagrees the report has the driver's counterexample with at most that many rounds, unless the stress budget ran out before that round. |
| States.ReachesIffFollows | src/stressagent/states.py:34-50 | What the declared graph reaches is exactly anything deeper in the pipeline plus the repair cycle, and nothing after a terminal state. |
| States.DeclaredEdges | src/stressagent/states.py:34-50 | The declared edges are these thirteen, and from every state that is not terminal those to failed and degraded. |
| Traces.AttemptStaysInClosure | src/stressagent/pipeline/run.py:76-226 | Every pair of consecutive states of a first attempt, from submitted to the terminal one, lies in the transitive closure, and at most ten states come before the end. |
| Traces.DeclaredIff | src/stressagent/states.py:34-50 | An attempt in which nothing raises takes declared edges only if and only if the tests end it, or an override sent it to search and the model failed, or time was up, before the first revision. |
| Traces.DeclaredIffUnsearched | src/stressagent/states.py:47-50 | A judged attempt, failed ones included, takes declared edges only if and only if it writes nothing between judging and its terminal state. |
| Traces.RestIsDetermined | src/stressagent/pipeline/run.py:101-226 | The states after judging are exactly the trace of the plan, unless a short failing test makes it needless, and explaining when a counterexample is reported. |
| Examples.AttemptSkipsDeclaredStates | src/stressagent/pipeline/run.py:76-159 | There is an attempt, ending done, that writes compiling, judging, authoring, validating, stressing and explaining, of which two steps are no declared edges. |
| Examples.AttemptLosesItsTest | src/stressagent/pipeline/run.py:44-57 | There is an attempt with a failing test in hand that ends failed without a counterexample because a driver line is too long to read. |
| Examples.SentinelReachesTheAuthor | src/stressagent/pipeline/stages.py:219-221 | There is a revision whose gates answer with the bare sentinel, which is then what the author is asked to repair. |
| ModelClient.CircuitBreaker.constructor | src/stressagent/llm/client.py:69-73 | A new breaker has no failures. |
| ModelClient.CircuitBreaker.IsOpen | src/stressagent/llm/client.py:75-84 | Reading is open exactly at the threshold within the window; at the threshold past the window it leaves the count one short of it, and otherwise changes nothing. |
| ModelClient.CircuitBreaker.RecordSuccess | src/stressagent/llm/client.py:86-87 | A success clears the failures and keeps the time of opening. |
| ModelClient.CircuitBreaker.RecordFailure | src/stressagent/llm/client.py:89-92 | A failure counts, and at the threshold sets the time of opening. |
| ModelClient.Generate | src/stressagent/llm/client.py:130-252 | With the breaker at its threshold and within its window the call is unavailable, and otherwise with calls at their cap or tokens above theirs it is out of budget, both at no cost; else the attempts are made, each answer is billed, and the breaker learns the outcome. |
| ModelClient.Request | src/stressagent/llm/client.py:176-252 | The retry loop alone: its outcome, the answers billed, and what the breaker learns: a success clears it, a final API error counts at the moment after the last request, malformed answers leave it as it is. |
| ClientTheorems.BreakerRefines | src/stressagent/llm/client.py:64-92 | The counter and the timestamp refine an explicit closed / open / half-open machine, although reading writes. |
| ClientTheorems.FailuresAreSpaced | src/stressagent/llm/client.py:75-92 | The invariant behind the rate bound: from the threshold on, recorded failures are more than the window apart. |
| ClientTheorems.FailureRateIsBounded | src/stressagent/llm/client.py:149-193 | For callers that take turns and never succeed, n failures beyond the threshold take more than n windows. |
| ClientTheorems.RefusedIff | src/stressagent/llm/client.py:149-156 | A call is refused exactly when the breaker is at its threshold within the window, or the row is at one of its caps, in this order. |
| ClientTheorems.GenerateIsACall | src/stressagent/llm/client.py:149-193 | What a call without success does to the breaker, whatever the state of its row, is what the calls counted by the rate bound do, asked at its check and ended after its last request. |
| ClientTheorems.HalfOpenAdmitsEveryConcurrentCaller | src/stressagent/llm/client.py:79-83 | Past the window, every check made before the first outcome is admitted, however many; at most one is if and only if at most one is made. |
| ClientTheorems.ParsedIffDelivered | src/stressagent/llm/client.py:178-246 | A call returns an answer exactly when some attempt parses, is not cut off unless it is the last, and every earlier one asked for another try. |
| ClientTheorems.AttemptsAreBounded | src/stressagent/llm/client.py:178-204 | One call records at most as many answers as attempts, each within the largest response. |
| ClientTheorems.AttemptsMean | src/stressagent/llm/client.py:176-252 | Requests are made as long as each asks for another try; every answer among them is billed with its tokens; and the last request decides between parsed, unavailable and malformed. |
| Refinement.AttemptIsARun | src/stressagent/pipeline/run.py:76-159 | One attempt as a whole, its state writes and its model calls in any order, with whatever other workers, callers and the clock do and its own renewals before each of its steps, is a legal run of the queue, closed by one finish that sets the terminal state. |
| Refinement.CallIsARun | src/stressagent/llm/client.py:178-204 | The billing of an admitted call is a legal run of the queue that changes the row in the same way and never exceeds the retries. |
| Partition.BestSplit | problems/example-partition/correct.cpp:8-29 | The enumeration returns the least gap over all 2^n splits if and only if the total is not negative; otherwise it returns the total. |
| Partition.EveryChoiceHasAMask | problems/example-partition/correct.cpp:19-22 | Every split is met by a mask below 2^n. |
| Partition.GreedySplit | problems/example-partition/solution.cpp:10-29 | The array ends sorted and the answer is the gap of the greedy on it. |
| Partition.SortedIsSorted | problems/example-partition/solution.cpp:16 | The sort is a descending permutation. |
| Partition.GreedyNeverBelowOptimum | problems/example-partition/solution.cpp:16-27 | The greedy's answer is never below the optimum and differs from it by an even amount. |
| Partition.GreedyAtMostLargest | problems/example-partition/solution.cpp:18-27 | On items that are not negative the answer is at most the largest. |
| Partition.GreedyIsRightIff | problems/example-partition/solution.cpp:1-5 | The greedy is optimal on every list of n positive items if and only if n is at most four. |
| Partition.FewAreOptimal | problems/example-partition/solution.cpp:16-27 | On up to four items that are not negative the greedy is optimal. |
| Partition.DominatedIsOptimal | problems/example-partition/solution.cpp:16-27 | When one item is at least the sum of the others, none negative, the greedy is optimal. |
| Partition.GreedyIsWrong | problems/example-partition/solution.cpp:1-5 | On 630 629 628 627 626 the greedy answers 626, which is not optimal. |

## Left out

- Docker commands, subprocesses, cgroups and the decoding of the driver's output lines. An execution is an
  uninterpreted deterministic function of program text, arguments, input and time limit.
- Programs that change files in their sandbox while they run: the files at stress time are those the gates saw.
- Gemini requests, prompts, fence stripping and schema parsing. A reply is an arbitrary choice of API error,
  truncated, malformed or parsed answer.
- DriverTheorems.PickSizeInRange: the log-uniform draw of the second phase is floating point; the raw size is
  an uninterpreted function of the integer hash, and only the clamp is stated.
- IntakeKey.KeyIdentifiesSubmission: SHA-256 is assumed to have no collisions, and fields are free of NUL.
- Database.Submissions.Insert: the id of the new row is supplied by the caller as one not in use; columns that
  are copied and never read by the protocol are not there.
- Database.Submissions.ClaimJob: which rows other transactions hold locked is an input; the protocol in `Queue`
  lets a claim take any claimable row, which includes the oldest one.
- Each SQL statement is one atomic step, as Postgres provides with row locks and the unique constraint.
- The queue's clock advances in arbitrary positive steps; the heartbeat loop is the renewal steps of a worker,
  with a bound on the delay where a theorem needs one, and stray renewals that may come at any time.
- Worker.CreateSubmission: states what one undisturbed caller does; the interleaved callers are those of `Queue`.
- `worker_loop` polling, back-off and shutdown, and the semaphore on sandboxes: a worker may claim whenever it
  is idle, and may leave a row or crash at any point.
- Exceptions come before or after an operation of a stage, not within a SQL statement.
- Executor.RunSubmission: a raised final write has written nothing, and the failure write succeeds; the other
  cases are the late fault and the crash of the queue protocol.
- Executor.Pursue: the wording of explanations and failure reports, and notes in the replay log, are not in the
  report; a note counts only as an operation that may raise.
- Stages.Context.Author: the request holds the constraints, or the failed programs and which gate failed; the wording
  of the prompt, and the program output quoted in it, are not modelled, and the reply is arbitrary.
- OutcomeTheorems.StressDecides: says nothing when the event stream is cut, since a mismatch may then be lost.
- ModelClient.Generate: retry delays, the doubling of the output limit, and the log entries of a call.
- ClientTheorems.FailureRateIsBounded: callers that take turns and never succeed, as concurrent ones are not
  bounded (`HalfOpenAdmitsEveryConcurrentCaller`) and a success resets the count.
- Programs.TokensOfUnwords: the ASCII white space that splits a Python string; other Unicode spaces are words.
- Partition.BestSplit: at most 30 items, the range of the 32-bit shift; sums are unbounded integers.
- Partition.GreedySplit: the library sort is given by its result, an insertion sort on values.
- Artifacts other than the cached constraints, the payloads of streamed events, the web pages, routing,
  configuration loading, scripts, provisioning of tests, and the other sample problems.
