# Scoring engine: a verified model

The scoring engine probes every team's services once a round, stores one check row per
probe, and keeps two derived tables beside the check history so that no reader has to scan
it: `round_score` (points per team and round) and `Service.consecutive_failures_cache`
(the current failure streak of a service). Everything a scoreboard shows is read from
those two tables. This project models the protocol that writes them, the code that repairs
and rebuilds them, and the reads that trust them, and proves that they say what the check
history says.

## What is modelled

- **Store**: the tables as sequences of rows, and a `Database` session with a committed and
  a working copy. A `script` decides the fate of every statement ever sent: it works, it
  fails, or (for a commit) it takes effect and still raises. A contract that holds for
  every script therefore holds for an exception at every point. `seen` collects every
  state that was ever committed, so every state another reader could have observed.
- **Streaks, Scores, Backfill**: the failure count as the batched query defines it, the
  backward scan over a service's rows, and the writers of both derived tables.
- **Tasks**: dispatch, polling of the result backend in bulk or one by one, and the loop
  that turns results into checks and into the aggregates the round close stores.
- **Plans**: all that a round meets outside the engine, and the checks it comes to, as a
  function of it.
- **Lifecycle, Engine, Rollback**: a round as three commits, the cleanup that follows any
  exception, the retry, the administrator's rollback, and the main loop over any sequence
  of pauses, closed windows, rounds and rollbacks. `Lifecycle.Stage` names the states one
  attempt can leave behind, `Rollback.Partly` those a rollback passes through.
- **Runs**: the legs of a run from one committed state to the next, and what holds along
  every such path. `Runs.Log` holds what a run knows and no table stores. What is said of
  scores and streaks holds under any schedule, edited at any time, and any clock; the
  instants at which rounds passed the gate are followed separately (`Runs.PathKeepsTimes`).
- **Turns**: the account of a run, turn by turn: which leg came of it, what it cost, and
  whether the process went on.
- **Schedule, Reads, Freeze**: the schedule gate, the freeze derived from it, and reads
  under a freeze.
- **Sla, Penalties, Totals, Clamp**: the SLA arithmetic, batched reads against the
  per-service loops, truncation at two grains, and the zero floor.
- **Charts, Ranking**: the line chart, its downsampling, and ranks.
- **Json, Migration**: migration 004 as statements over columns that are never rolled back
  together, with an interruption possible before each.
- **Competition**: the validator's loops and the fairness implied by passing them.
- **Sums**: sums and filters over sequences, shared by all of them.

Code that changes things step by step is modelled by classes and methods with loops and is
proved against functions over the tables; code made of expressions is modelled by
functions. Main results:

1. *Crash-atomic scoring.* `Engine.Engine.Run` leads along a path of legs on which every
   state anyone saw lies. Whatever statement fails, and even when a commit lands but raises
   or cleanup gives up, every committed state has score rows equal to the point sums of its
   checks and streaks equal to its trailing failures (`Turns.RunIsCrashAtomic`, `Runs.SeenStatesAreRight`). A confirmed cleanup
   restores the tables of before the round (`Lifecycle.CleanupRestores`,
   `Engine.Engine.CleanupFailedRound`).
2. *Checks.* The checks of a round are a function of what it meets: which poll's answer
   counts for each task, up to the one fetch after the wait, and what it means. Nothing passes
   that was not reported as matching, and what every poll reports so passes
   (`Engine.Engine.RunRound`, `Plans.FittingChecksAnswer`, `Turns.RunAnswersPlans`).
3. *Retry.* A failed round is followed by another attempt exactly below the failure limit, every
   failed round is paid for by failing statements of its own, and so finitely many failures
   only delay a run (`Engine.Engine.Run`, `Turns.FewFaultsAreSurvived`).
4. *Streaks.* Incremental maintenance equals recomputation over any interleaving of closes
   and cleanups, and after any run a stale streak is right again for every service that
   passed since the last rollback (`Runs.StreakIsRightSincePass`). The backward scan ranges
   over exactly known bounds (`Streaks.ScanRange`) and agrees with the batched count exactly
   when the service's last passing round holds no failure
   (`Streaks.ScanAgreesExactlyWhenUnmixed`).
5. *Rollback.* Exactly the earlier rounds, checks and rows survive and the score table stays
   right. Every state it passes through is named, repeating it after an interruption
   reaches the same tables (`Rollback.RetryReaches`, `Runs.RetryRepairs`), and the streak
   column, which is not rebuilt, is still right exactly under
   `Rollback.StreakAfterRollback`.
6. *Reads.* Batched penalties equal the per-service loop, the line chart ends at the bar
   chart, and ranks are competition ranks. After any run the frozen view hides at most one
   closed round, which passed the gate before the freeze, and it is a snapshot exactly as
   long as nothing that bears an earlier time lands or is discarded late
   (`Freeze.FrozenViewIsSnapshot`, `Runs.FrozenRunIsSnapshot`). The floor at zero is never
   needed exactly under settings that can be read off (`Clamp.FloorNeverFiresExactly`).
7. *Migration 004.* Any number of interrupted upgrades followed by one that is left alone
   finishes exactly when all rows are acceptable, and no value is ever out of reach.
8. *Validator.* It accepts exactly the fair competitions.

Places where the code does not do what one would expect of it, or what its own comments
say, and which are stated with their exact condition:

- scoring_engine/scores.py:308-315 calls the batched count equivalent to
  `get_consecutive_failures`. The scan has no tie-break inside a round, so this holds
  exactly when the last passing round of the service is unmixed. Rounds written by the
  engine hold one check per service, so there it does hold (`Runs.ColumnIsScanSincePass`).
- The adjusted score (scoring_engine/sla.py:319-341) is read through that scan, so after a
  mixed round a service that passed can still be charged, exactly under
  `Penalties.PassRestoresBaseExactly`.
- A frozen board (scoring_engine/scores.py:66-72) filters by recorded times. A round whose
  end lies at or before the freeze but whose commit or cleanup comes after it changes what
  the frozen board shows (`Freeze.DiscardAfterFreezeShows`).
- scoring_engine/scores.py:428-432 names the admin rollback as a caller of the recompute;
  scoring_engine/web/views/api/admin.py:1719-1738 does not call it
  (`Rollback.StreakAfterRollback`, `Rollback.RollbackLeavesStaleStreak`).
- `Team.place` reports a team without a score row as first, also when others have scored
  (`Ranking.PlaceIsRankExactlyWhenScored`, `Ranking.UnscoredTeamIsPlacedFirst`).
- A downgrade of migration 004 cannot be repeated once a table with rows has had its final
  rename (`Migration.Downgrade`, `Migration.RenamedTableBlocksDowngrade`).

## Assumptions

- New round ids exceed all existing ones; round numbers are contiguous when the engine
  starts.
- Only what is said of hidden rounds needs more: a clock that never goes back
  (`Turns.Chronological`), and a schedule that has not been edited since some instant up to
  the freeze (`Runs.UnderSchedule`). Rounds before that instant may have run under any
  schedule or none.
- The roster of services, their teams and their points do not change during a run.
- Result identifiers are never reused. Environments belong to the service they are listed
  under; an environment may disappear between dispatch and result processing.
- Floating-point products are exact reals; `int()` truncates toward zero.
- An exception raised between two statements is the failure of the next statement.
- An administrator's rollback happens between rounds, as the pause in the endpoint is
  meant to arrange.
- `HonestPlan` (workers report on the environments this round sent them) is needed only
  where one check per service is claimed.
- A result backend's bulk and per-task views describe the same payload (`Tasks.Coherent`);
  needed only by `Tasks.BulkEqualsIndividual` and `Plans.ChecksIgnoreBatch`.
- In the streak lemmas the order of rows inside one round is arbitrary.

## Model

| member | source | states |
|---|---|---|
| Store.Database.Commit | scoring_engine/engine/engine.py:782-785 | a commit that reports success made the working copy visible; one that raised may or may not have, and nothing else can become visible |
| Store.Database.Rollback | scoring_engine/engine/engine.py:477-480 | after a successful rollback nothing uncommitted is left; the committed state is never touched |
| Store.Database.InsertRound | scoring_engine/engine/engine.py:601-610 | the new round gets a key above all existing ones, even when earlier inserts were rolled back |
| Store.RanFaults | scoring_engine/engine/engine.py:556-784 | what runs to its end met no failing statement, and what raises met exactly one, its last |
| Streaks.LastPassIs | scoring_engine/scores.py:317-323 | the `last_pass` subquery yields the greatest round in which the service passed, and nothing exactly when it never did |
| Streaks.SplitHistory | scoring_engine/scores.py:308-333 | only the part of the history after the latest pass counts: cut at any point in time, the later part decides alone once it holds a pass, and otherwise adds all its failures |
| Streaks.CloseStreak | scoring_engine/scores.py:391-400 | closing a round resets the streak of a service that passed in it, even when it also failed, and otherwise extends it by every failing check |
| Streaks.DeleteUntouched | scoring_engine/engine/engine.py:362-369 | deleting checks of other services cannot change a streak, which is why a partial rebuild is enough |
| Streaks.GetConsecutiveFailures | scoring_engine/sla.py:91-118 | the loop returns the length of the failing head of its query result |
| Streaks.QueryKeepsCount | scoring_engine/sla.py:99-107 | the filtered rows of the scan hold all that the batched count depends on |
| Streaks.ScanBounds | scoring_engine/sla.py:108-118 | newest round first, the scan counts at least the trailing failures and at most those plus the failures of the last passing round |
| Streaks.ScanRange | scoring_engine/sla.py:99-118 | over all row orders the query may return, the scan ranges between these two counts and reaches both |
| Streaks.MixedRoundConfusesScan | scoring_engine/sla.py:99-118 | a pass and a failure in one round: the batched count is 0 and the scan can say 1 |
| Streaks.ScanAgreesExactlyWhenUnmixed | scoring_engine/scores.py:308-315 | every row order the query may return gives the batched count if and only if the last passing round holds no failure of the service |
| Streaks.GetMaxConsecutiveFailures | scoring_engine/sla.py:121-149 | the result is attained by some failing slice of the history and exceeded by none |
| Scores.RoundServicePointsTotal | scoring_engine/scores.py:75-89 | the grouped query, read with default 0, gives every team the point sum of its passing checks in the round |
| Scores.InsertRows | scoring_engine/scores.py:127-143 | one row per team with a nonzero total, none twice, adding up to the totals; all other tables untouched |
| Scores.MaterializeRound | scoring_engine/scores.py:92-143 | on success the round's rows are those its points call for, appended to the rows of other rounds when clearing and to all rows otherwise; uncommitted unless asked to commit; on failure nothing became visible without a commit |
| Scores.GroupByValue | scoring_engine/scores.py:411-417 | the groups partition the given services by their value |
| Scores.ApplyConsecutiveFailures | scoring_engine/scores.py:391-422 | grouped updates amount to: a service that passed gets 0 (pass wins over fail), one that only failed gains its failure count, every other is unchanged |
| Scores.StreakCountsTotal | scoring_engine/scores.py:308-333 | services absent from the grouped query have no trailing failure |
| Scores.WriteCounts | scoring_engine/scores.py:446-458 | reset-then-write leaves each target with its count or 0 and every other service alone, whatever order the groups come in |
| Scores.RewritingRecomputes | scoring_engine/scores.py:425-461 | writing only the nonzero counts over a reset is the same as recomputing each target from the history |
| Scores.RecomputeStreaks | scoring_engine/scores.py:425-461 | on success the chosen services hold their trailing failure count and nothing else changed |
| Backfill.ReplaceRound | scoring_engine/scores.py:121-140 | clearing by round id and rewriting makes the round right, whatever rows it had, copied round numbers and repeated teams included |
| Backfill.ReplaceKeepsOthers | scoring_engine/scores.py:121-140 | and keeps every other round that was right |
| Backfill.AllRoundsMatch | scoring_engine/scores.py:146-161 | if the rows of every round are right the whole table is |
| Backfill.MaterializeAllRounds | scoring_engine/scores.py:146-161 | from arbitrary rows that refer to some round, the recompute reaches the table the engine maintains incrementally, touching no other table |
| Tasks.ResultReader.FetchBatched | scoring_engine/engine/engine.py:250-266 | reading in chunks of 500 gives every id the meta of its own payload, and gives up exactly when the backend has no bulk lookup |
| Tasks.ResultReader.FetchIndividually | scoring_engine/engine/engine.py:289-300 | one meta per id, a result only for SUCCESS |
| Tasks.ResultReader.FetchTaskMetas | scoring_engine/engine/engine.py:222-248 | bulk and fallback cover the same ids, and the first proof that there are no bulk lookups is remembered for good |
| Tasks.BulkEqualsIndividual | scoring_engine/engine/engine.py:223-230 | where a readable payload and `AsyncResult` agree on status and on the result of a SUCCESS, which is assumed, bulk and per-task reading give the engine the same: the results of unfinished tasks are dropped alike |
| Tasks.PayloadRead | scoring_engine/engine/engine.py:268-287 | read in bulk, the stored dict is delivered exactly for a stored SUCCESS; a task is PENDING exactly when nothing or no other status is stored; an undecodable payload is final and delivers nothing |
| Tasks.FinalWasShown | scoring_engine/engine/engine.py:569-634 | a dict that counts for a task was shown by the backend, as a SUCCESS, at one of the polls or at the fetch after them |
| Tasks.SteadyIsFinal | scoring_engine/engine/engine.py:569-634 | what every poll shows, in bulk and singly, is what counts |
| Tasks.ResultReader.Outstanding | scoring_engine/engine/engine.py:315-323 | exactly the tasks not yet completed, each once |
| Tasks.ResultReader.Classify | scoring_engine/engine/engine.py:327-338 | splits what was asked into pending and completed, and keeps only terminal results |
| Tasks.ResultReader.AllPendingTasks | scoring_engine/engine/engine.py:302-339 | pending are exactly the unfinished tasks reported PENDING; every other becomes completed, and only terminal metas are added to the cache |
| Tasks.ResultReader.AwaitTasks | scoring_engine/engine/engine.py:569-598 | the wait ends at the first poll after which nothing is pending, or at the ceiling; by then exactly the tasks that some poll showed as other than PENDING are completed, and what is kept of each is the first such meta if it is terminal, under bulk lookups as long as the backend has them |
| Tasks.SendTasks | scoring_engine/engine/engine.py:516-552 | the loop stops exactly at a service without a check class; completed, its tasks and their environments are those of the services that have any, in the order taken |
| Tasks.Dispatch | scoring_engine/engine/engine.py:516-552 | raises exactly when a service has no check class; otherwise each service that has an environment gets exactly one task, aimed at one of its own environments, and the ids are distinct |
| Tasks.AssignmentProbes | scoring_engine/engine/engine.py:531-552 | the map from dispatched tasks to environments sends the k-th task to an environment of the k-th service that has any |
| Tasks.JudgeTask | scoring_engine/engine/engine.py:653-716 | the nested branches give a check exactly when the environment still exists, and a pass exactly when a delivered report did not error out, matches, and is not rejected |
| Tasks.OnlyTheHeadCounts | scoring_engine/engine/engine.py:673-700 | of an output longer than 5000 characters only the first 5000 decide, of any other all of it |
| Tasks.Record | scoring_engine/engine/engine.py:718-747 | adding one check keeps points, passed services and failure counts the exact aggregates of the checks so far |
| Tasks.ProcessResults | scoring_engine/engine/engine.py:641-747 | the checks are those of the results in order, and the three aggregates stored at the round close are the exact sums over them |
| Tasks.OneCheckPerTask | scoring_engine/engine/engine.py:653-747 | the tasks whose reported (or, without a report, dispatched) environment still exists yield exactly one check each, in order, of that environment's service, and no other task yields any |
| Tasks.OneCheckPerLiveTask | scoring_engine/engine/engine.py:653-747 | when workers report on their own environments, these are the tasks whose dispatched environment still exists |
| Tasks.OneCheckPerService | scoring_engine/engine/engine.py:536-552 | tasks sent to different services never give two checks of one service |
| Lifecycle.ClosedScores | scoring_engine/engine/engine.py:752-770 | the rows written from memory keep the whole score table equal to the sums over all checks |
| Lifecycle.ClosedStreaks | scoring_engine/engine/engine.py:772-780 | a right streak stays right over a round close, and a passing round makes any streak right |
| Lifecycle.StagesAreSound | scoring_engine/engine/engine.py:560-782 | at every commit point of a round the links, the numbering and the score table are right |
| Lifecycle.StagesKeepStreaks | scoring_engine/scores.py:391-422 | one attempt: no stage of it spoils a right streak, and a landed pass makes a stale one right |
| Lifecycle.StagesAreConsistent | scoring_engine/engine/engine.py:560-782 | at every commit point both derived tables agree with the check history |
| Lifecycle.CleanupRestores | scoring_engine/engine/engine.py:341-395 | cleaning up undoes every stage a failed round can have reached, even a close that landed: rounds, checks and rows are those of before, no manifest of that round is left, and no other knowledge-base row is lost |
| Lifecycle.PartialRebuildSuffices | scoring_engine/engine/engine.py:379-388 | rebuilding the streaks of the services a deletion touched gives the same column as rebuilding all of them |
| Lifecycle.OneCheckEachIsUnmixed | scoring_engine/engine/engine.py:523-552 | one check per service and round rules out mixed rounds |
| Lifecycle.StreakIsTheScan | scoring_engine/scores.py:391-461 | on such a history the maintained column equals what the backward scan would count, for every row order |
| Lifecycle.StagesKeepOneCheckEach | scoring_engine/engine/engine.py:523-552 | a round with one check per service keeps the whole history that way |
| Engine.Engine.constructor | scoring_engine/engine/engine.py:88-104 | the engine starts at the number of the last round, which is the number of rounds |
| Engine.Engine.SaveManifest | scoring_engine/engine/engine.py:561-567 | on success exactly the manifest of the current round became visible; otherwise it may or may not have |
| Engine.Engine.OpenRound | scoring_engine/engine/engine.py:600-610 | on success exactly one bare round follows the earlier ones, beside its manifest; otherwise it may or may not have landed, and nothing is scored |
| Engine.Engine.RecordChecks | scoring_engine/engine/engine.py:612-750 | the checks and the round's end are staged, and the aggregates handed on are exact for these checks |
| Engine.Engine.ScoreRound | scoring_engine/engine/engine.py:612-780 | checks, round end, score rows and streaks are staged together, fit each other, and none of it is visible yet |
| Engine.Engine.CloseRound | scoring_engine/engine/engine.py:612-782 | the close is all or nothing: either the bare round is still what is committed, or the whole of it landed |
| Engine.Engine.CollectResults | scoring_engine/engine/engine.py:569-598 | waiting keeps, for each dispatched task, the first meta that was not PENDING, if it is terminal |
| Engine.Engine.FillInbox | scoring_engine/engine/engine.py:612-634 | results collected while waiting are not replaced, and every other task gets what the backend reports at the fetch after the last poll; together this is the inbox the plan determines |
| Engine.Engine.JudgeRound | scoring_engine/engine/engine.py:560-747 | up to the close nothing scored is visible, an exception is raised exactly at the first failing statement, and otherwise the result loop works on exactly the inbox the plan determines |
| Engine.Engine.TryRound | scoring_engine/engine/engine.py:560-782 | the attempt, its checks included, is settled by the plan; it lands exactly when none of its statements fails, and an exception leaves the committed state at one of its stages, as was every state seen on the way |
| Engine.Engine.DeleteRound | scoring_engine/engine/engine.py:360-393 | one cleanup attempt stages the deletions, the partial rebuild and the manifest's removal, and shows nothing before its commit |
| Engine.Engine.CleanupOnce | scoring_engine/engine/engine.py:357-399 | the round is entirely gone or entirely untouched |
| Engine.Engine.CleanupFailedRound | scoring_engine/engine/engine.py:341-418 | True only when the round is gone: no manifest of its number is left and, if the streaks were right before, the tables are those of before the round; there are at most three attempts, and it is True whenever fewer than three statements fail; False leaves a state that is still a stage of the attempt |
| Engine.Engine.AttemptRound | scoring_engine/engine/engine.py:556-828 | a landed round met no failing statement and resets the failure counter; a discarded one met one and a stuck one four, and either adds one |
| Engine.Engine.DispatchRound | scoring_engine/engine/engine.py:516-828 | the process ends here exactly when the services cannot be read or one has no check class; otherwise the round lands if and only if no statement fails |
| Engine.Engine.RunRound | scoring_engine/engine/engine.py:500-828 | the round gets the next number even after a rollback took rounds away; its checks are those the plan determines; every state seen is a stage of it; it lands exactly when no statement fails and every service has a check class |
| Engine.Engine.Enter | scoring_engine/engine/engine.py:476-501 | a round is entered exactly when the engine is neither paused nor outside all windows and no statement of the loop head fails |
| Engine.Engine.TakeTurn | scoring_engine/engine/engine.py:476-828 | one pass of the loop is a leg of the path; it idles on only for a pause or a closed gate, goes on after a failed round exactly below the failure limit, and otherwise ends exactly at a statement that fails outside the round or a service without a check class |
| Engine.Engine.TakeRollback | scoring_engine/web/views/api/admin.py:1654-1738 | a rollback between rounds, refused, finished or cut short anywhere, is a leg of the path and leaves the engine able to go on |
| Engine.Engine.Run | scoring_engine/engine/engine.py:470-828 | over every run of successes, failures, retries, pauses, schedule edits and rollbacks, finished or not, the committed states form a path of legs, one for each turn in order, and every state anyone saw lies on it; it stops before its turns are used up only at the last round, the failure limit, a service without a check class, or a statement that failed outside a round; every failed round is paid for by failing statements of its own; when none fails and every turn is open there is one landed round per turn, up to the number asked for |
| Turns.RunAnswersPlans | scoring_engine/engine/engine.py:531-782 | over a whole run the checks of every round answer the plan of its turn, and a landed round has added exactly them |
| Turns.FewFaultsAreSurvived | scoring_engine/engine/engine.py:785-825 | with fewer failing statements than failed rounds are tolerated, open turns land a round each, but for at most one turn per failing statement, and the process ends early only by a statement that failed outside a round |
| Turns.SmoothRun | scoring_engine/engine/engine.py:470-828 | when no statement fails and every turn is open, every turn lands a round |
| Turns.NoScheduleNoIdling | scoring_engine/schedule.py:119-121 | without a schedule an unpaused turn in which no statement fails attempts a round |
| Turns.RunIsCrashAtomic | scoring_engine/engine/engine.py:470-828 | without a rollback every state seen during a run has right score rows and, from right streaks, right streaks, whatever rounds came before and whatever the schedule |
| Turns.HonestRunIsUnmixed | scoring_engine/engine/engine.py:523-552 | with honest workers the history after any run, rollbacks included, holds one check per service and round |
| Runs.PathKeepsLog | scoring_engine/engine/engine.py:470-828 | along every path, whatever the schedule and the clock: links, numbering without gaps, settled and trusted streaks, one check each, and score rows right up to the number a rollback cut short has damaged |
| Runs.SeenStatesAreRight | scoring_engine/engine/engine.py:470-828 | every state seen, in-between ones included, is linked and numbered; its scores are right unless a rollback is or was left half done, also after finished ones |
| Runs.NoRewindKeepsTrust | scoring_engine/engine/engine.py:470-828 | only a rollback unsettles a streak or damages scores |
| Runs.InARowIsPaid | scoring_engine/engine/engine.py:785-825 | the count of failed rounds in a row never exceeds its start and the failing statements those rounds took |
| Runs.LandingsAreRounds | scoring_engine/engine/engine.py:556-785 | without a rollback the number of rounds grows by the landed ones, and beyond that only by rounds that could not be cleaned up |
| Runs.StreakIsRightSincePass | scoring_engine/scores.py:391-422 | after any run a streak, however stale it was, is right for every service that passed in a round landed since the last rollback |
| Runs.ColumnIsScanSincePass | scoring_engine/scores.py:391-461 | and with honest workers it then equals what the backward scan counts, for every row order |
| Runs.RetryRepairs | scoring_engine/web/views/api/admin.py:1719-1738 | a rollback cut short any number of times, with rounds run in between, is made good by one to the same number that finishes |
| Runs.PathKeepsTimes | scoring_engine/engine/engine.py:488-498 | along every path: each round ends after it passed the gate and before any later one did, and gates since the last schedule edit fell into a window |
| Runs.ShownUnlessHidden | scoring_engine/scores.py:66-72 | a score row is on the frozen board exactly when its round is closed and ended by the freeze |
| Runs.RunHidesOnlyEarlierGates | scoring_engine/engine/engine.py:488-498 | after any run, at any later gap instant, a closed round that the frozen board hides passed the gate before the freeze |
| Runs.RunHidesAtMostOneRound | scoring_engine/engine/engine.py:488-498 | and there is at most one such round, also when earlier rounds ran under another schedule or none |
| Runs.SeenStatesAreSteps | scoring_engine/engine/engine.py:560-828 | any two states seen during one attempt are related as the snapshot theorem's steps are |
| Runs.FrozenRunIsSnapshot | scoring_engine/scores.py:164-192 | of the states of a run without rollbacks, noted in any detail: from the freeze on every frozen total is the live one as of the freeze, if and only if no round of worth with an end up to the freeze lands or is discarded between two of them |
| Turns.ScheduledTurns | scoring_engine/engine/engine.py:488-498 | when no turn since an instant edits the schedule, every gate passed since then was that of the schedule in force |
| Plans.DispatchedTargets | scoring_engine/engine/engine.py:523-552 | no two tasks of a round probe the same service |
| Plans.FittingChecksAnswer | scoring_engine/engine/engine.py:531-747 | the checks of a round in terms of what it met: a passing check was reported as a SUCCESS with a matching report at some poll; a task that every poll reports so passes; and with honest workers there is exactly one check for each task whose environment is left, of the service it was sent to, which says what was reported of that task |
| Plans.PlannedIsHonest | scoring_engine/engine/engine.py:523-747 | with honest workers a round never checks a service twice |
| Plans.ChecksIgnoreBatch | scoring_engine/engine/engine.py:222-248 | on a coherent backend the checks of a round do not depend on whether bulk lookups work |
| Engine.ClosingParts | scoring_engine/engine/engine.py:749-780 | rows and streaks computed from the in-memory aggregates are those the round's checks call for |
| Rollback.LastNumberCounts | scoring_engine/models/round.py:26-32 | on contiguous numbers the last round number is the number of rounds |
| Rollback.DeleteChecks | scoring_engine/web/views/api/admin.py:1719-1724 | deleting in committed batches of 500 passes only through the states with whole batches of doomed rounds emptied, and ends with all of them |
| Rollback.DeleteFrom | scoring_engine/web/views/api/admin.py:1719-1738 | checks, score rows, manifests and rounds go in this order, each committed, and nothing else is ever visible |
| Rollback.AdminRollback | scoring_engine/web/views/api/admin.py:1654-1738 | rejected without any change for a number below 1 or past the last round; cut short anywhere, readers see one of the enumerated intermediate states; finished, exactly the planned deletions are committed |
| Rollback.RetryReaches | scoring_engine/web/views/api/admin.py:1654-1738 | from every such intermediate state the same rollback reaches the same tables |
| Rollback.RetryRefusedExactlyWhenDone | scoring_engine/web/views/api/admin.py:1656-1668 | and is refused if and only if those tables are already there |
| Rollback.PartlyIsLinked | scoring_engine/web/views/api/admin.py:1719-1738 | in every intermediate state the links and the numbering are right |
| Rollback.PartlyKeepsBelow | scoring_engine/web/views/api/admin.py:1719-1738 | nothing below the number has been touched |
| Rollback.RollTwice | scoring_engine/web/views/api/admin.py:1706-1738 | two rollbacks keep what lies below both |
| Rollback.RollbackKeepsExactlyTheEarlierRounds | scoring_engine/web/views/api/admin.py:1706-1738 | the rounds are the prefix below the number, and a check or score row survives if and only if its round does, and a knowledge-base row if and only if its round number is below |
| Rollback.RollbackIsSound | scoring_engine/web/views/api/admin.py:1726-1729 | deleting rows by number and checks by round id keeps score table and checks in agreement |
| Rollback.StreakAfterRollback | scoring_engine/web/views/api/admin.py:1719-1738 | a right streak stays right if and only if the deleted checks held no result of the service, or held a pass after which it failed as often as at the point rolled back to |
| Rollback.RollbackLeavesStaleStreak | scoring_engine/scores.py:428-432 | one failing round rolled back leaves no check and a streak of 1 |
| Schedule.NothingOpenSinceFreeze | scoring_engine/schedule.py:127-147 | under a derived freeze no window was open from the freeze until now |
| Schedule.FreezeIsWhenTheLastWindowClosed | scoring_engine/schedule.py:112-147 | once a window has closed, the derived freeze is the earliest instant since which the gate has been shut, and there is one exactly when it is shut now |
| Schedule.NoFreezeExactly | scoring_engine/schedule.py:127-147 | no freeze is derived exactly while the gate is open, or while there are windows that all end later |
| Schedule.FirstWindow | scoring_engine/schedule.py:112-124 | without windows the gate is always open; the first one shuts every instant but those from its start up to its end |
| Schedule.AnotherWindow | scoring_engine/schedule.py:112-124 | every further window opens exactly the instants from its start up to its end, and shuts none |
| Schedule.HiddenRoundsStartedEarlier | scoring_engine/engine/engine.py:488-498 | a closed round the freeze hides passed the gate before the freeze |
| Schedule.AtMostOneHiddenRound | scoring_engine/scores.py:66-72 | the frozen board hides at most one closed round, whatever schedule held before the last edit |
| Reads.AllTeamServiceScoresTotal | scoring_engine/scores.py:195-205 | teams absent from the grouped read have no visible row |
| Reads.TeamServiceScores | scoring_engine/scores.py:164-192 | with and without dynamic scoring, live or frozen, the dictionary read with default 0 is each team's total over its visible rows, and it has a key exactly for teams with such a row |
| Freeze.FlagPointsByTeam | scoring_engine/scores.py:266-296 | the loop over (team, kind) groups gives each team the value of its non-dummy captures up to the freeze, one by one |
| Freeze.StageScore | scoring_engine/scores.py:66-72 | under any freeze a stage of an attempt shows the old total plus, once it has landed and its end is not after the freeze, the truncated points of its checks |
| Freeze.PunctualExactly | scoring_engine/scores.py:66-72 | a step changes no frozen read if and only if what it lands, discards or records bears a later time or is worth nothing |
| Freeze.FrozenIsLive | scoring_engine/scores.py:164-233 | when nothing is later than the freeze, frozen and live reads agree |
| Freeze.FrozenViewIsSnapshot | scoring_engine/scores.py:164-296 | over every history of attempts at any stage, adjustments and captures: each frozen read in each later state equals the live read as of the freeze, if and only if from then on nothing of worth bearing a time up to the freeze lands, is discarded or is recorded |
| Freeze.DiscardAfterFreezeShows | scoring_engine/engine/engine.py:341-395 | the failing cases: a round ending at the freeze that is discarded after it, or lands after it, changes the frozen board by its 100 points |
| Sla.PenaltyFollowsSchedule | scoring_engine/sla.py:171-202 | every mode charges the schedule its description advertises, given as a start and a step per further failure, cut at the maximum unless negative scores are allowed, the next-check mode always |
| Sla.ModesAreOrdered | scoring_engine/sla.py:171-202 | for every failure count flat <= additive <= exponential, capped or not |
| Sla.PenaltyGrows | scoring_engine/sla.py:152-202 | in every mode a longer streak never costs a smaller percentage |
| Sla.PenaltyBounded | scoring_engine/sla.py:312-316 | at most 100 percent never takes more than the base, after truncation |
| Sla.PenaltyTruncates | scoring_engine/sla.py:312-316 | in whole numbers, for either sign: the penalty is base times percent in hundredths, cut off towards zero |
| Sla.ScaleTruncates | scoring_engine/sla.py:267-286 | points under a multiplier are cut off towards zero |
| Sla.AdjustedRoundsUp | scoring_engine/sla.py:319-341 | the adjusted score is the percentage left of the base, rounded up, or 0 where more than all would be lost and scores may not be negative |
| Sla.ToleratedFailuresAreFree | scoring_engine/sla.py:152-170 | switched off, or below the threshold, nothing is charged |
| Sla.ServiceBaseLoop | scoring_engine/sla.py:267-286 | the loop with its inlined multiplier is the sum of separately truncated points per passing check under `calculate_round_multiplier` |
| Sla.PlainBase | scoring_engine/sla.py:247-248 | without dynamic scoring that sum is passes times points |
| Penalties.BucketsEqualPerCheckSum | scoring_engine/scores.py:352-388 | counting passes per phase and multiplying equals the sum per check, also when the late phase starts inside the early one |
| Penalties.BatchedBaseIsServiceBase | scoring_engine/scores.py:336-388 | the batched base of a service equals the per-service one, dynamic or not |
| Penalties.TeamPenalties | scoring_engine/scores.py:464-509 | read with default 0, every team gets the sum over its services above the threshold |
| Penalties.TeamTotalPenalties | scoring_engine/sla.py:344-365 | the loop returns the sum of the service penalties of the team |
| Penalties.ContributionsAgree | scoring_engine/scores.py:486-508 | one service counts alike in both readings if and only if its percentage is not negative, or takes nothing off |
| Penalties.BatchedEqualsLoop | scoring_engine/scores.py:464-509 | with right streaks and unmixed last passes the batched penalties equal the per-service loop for every team and mode |
| Penalties.FailingRoundKeepsBase | scoring_engine/sla.py:231-286 | a round without a pass of the service leaves its base score alone |
| Penalties.PassRestoresBaseExactly | scoring_engine/sla.py:289-341 | after a passing round the adjusted score is the base for every order of the scan's rows, if and only if the failures of that same round would cost nothing |
| Penalties.FailingRoundNeverRaisesExactly | scoring_engine/sla.py:289-341 | a round without a pass cannot raise the adjusted score, whatever the row orders before and after, if and only if its trailing failures cost at least as much as the earlier ones together with those of the last passing round |
| Penalties.AdjustedAlongAStreak | scoring_engine/sla.py:289-341 | with unmixed last passing rounds both hold: no rise without a pass, the base after one |
| Penalties.MixedPassIsStillCharged | scoring_engine/sla.py:289-341 | a pass and a failure in one round: 90 of 100 points can remain |
| Penalties.AdjustedFallsAlongAStretch | scoring_engine/sla.py:289-341 | from an unmixed last passing round, over any stretch of attempts without a pass, failed and discarded ones included, the adjusted score as the scan reads it is never above where it started, also in tables whose score rows an interrupted rollback has damaged |
| Totals.TeamDynamicServiceScore | scoring_engine/scores.py:512-525 | the loop returns the team's rows, each truncated once under its round's multiplier |
| Totals.PlainTeamBase | scoring_engine/sla.py:368-394 | without dynamic scoring the team base is the raw total |
| Totals.ServicesToChecks | scoring_engine/sla.py:231-286 | the bases of a team's services add up to its passing checks, each truncated on its own |
| Totals.RowHoldsRoundPoints | scoring_engine/scores.py:92-143 | in a sound database a score row holds the point sum of its round and team |
| Totals.TeamBaseByRound | scoring_engine/scores.py:512-525 | the team base is the sum over rounds of the truncated round total |
| Totals.TruncationLoss | scoring_engine/sla.py:489-505 | inside one round, truncating each passing check loses at most one point per check beyond the first |
| Totals.RoundingBound | scoring_engine/scores.py:512-525 | the team base is at least the sum of its service bases and exceeds it by at most the passing checks beyond the first of each scoring round |
| Clamp.CappedExactly | scoring_engine/sla.py:171-202 | no failure count costs more than 100 percent if and only if the penalty is off, its percentage is not positive, or the maximum is at most 100 and applies to the mode |
| Clamp.NoRoundPaysExactly | scoring_engine/sla.py:205-228 | the closed condition under which every round has multiplier 0 |
| Clamp.PenaltiesStayWithinBase | scoring_engine/sla.py:397-419 | then, dynamic or not and whatever failure counts were read, a team's penalties never exceed its base and the floor at zero changes nothing |
| Clamp.FloorNeverFiresExactly | scoring_engine/sla.py:397-419 | over all sound databases, dynamic or not, the floor is never needed if and only if the cap holds or no round pays |
| Charts.PositionGap | scoring_engine/web/views/api/scoreboard.py:175-189 | neighbouring sample positions, rounded half to even, differ by at least 1 and at most floor(step) + 1 |
| Charts.TiesGoToEven | scoring_engine/web/views/api/scoreboard.py:185-186 | a position half-way between two integers becomes the even one |
| Charts.PickPositions | scoring_engine/web/views/api/scoreboard.py:182-189 | putting the rounded positions into a set and sorting it gives them back in order, none merged |
| Charts.DownsampleIndices | scoring_engine/web/views/api/scoreboard.py:175-189 | strictly increasing from 0 to n - 1 with exactly min(n, max_points) entries, so deduplication and the final append never change the count |
| Charts.NumbersOnAxis | scoring_engine/web/views/api/scoreboard.py:207-223 | every visible row has its number between 1 and the last round number |
| Charts.RowsOnAxis | scoring_engine/web/views/api/scoreboard.py:213-223 | as no team has two rows of one round, no team has two visible rows with one round number, and every number lies on the axis |
| Charts.CollectRows | scoring_engine/web/views/api/scoreboard.py:220-223 | assigning instead of adding loses nothing |
| Charts.Cumulative | scoring_engine/web/views/api/scoreboard.py:240-247 | each point is the total of the rounds up to it, also for rounds without a row |
| Charts.LineData | scoring_engine/web/views/api/scoreboard.py:193-256 | every sampled point of every team is its total of the rounds up to that x value, and the last x value is the last round, of which there are at most 400 |
| Charts.LineEndsAtBar | scoring_engine/web/views/api/scoreboard.py:57-77 | the last point of every line is the unweighted service score of the bar chart, live or frozen, dynamic or not, and also while a rollback is left half done |
| Charts.GetArrayOfScores | scoring_engine/models/team.py:308-329 | entry r is the raw total of the team's rounds up to r |
| Charts.ArrayMatchesLine | scoring_engine/models/team.py:308-329 | without dynamic scoring the team page and the line chart plot the same totals |
| Ranking.RankOfPermutation | scoring_engine/web/views/api/overview.py:48 | ranks do not depend on how the sort ordered ties |
| Ranking.HigherUpTo | scoring_engine/web/views/api/overview.py:52-57 | on a descending list, where a score group starts is one more than the number of strictly higher scores |
| Ranking.CalculateRanks | scoring_engine/web/views/api/overview.py:41-57 | every id gets 1 plus the number of strictly higher scores, and no other id gets a rank |
| Ranking.GetRankFromScores | scoring_engine/models/team.py:56-78 | on a descending list the early return gives the target the same competition rank, and the default exactly when it is missing |
| Ranking.Place | scoring_engine/models/team.py:141-155 | a team with an entry gets its competition rank among the entries, a team without one gets 1 |
| Ranking.PlaceIsRankExactlyWhenScored | scoring_engine/models/team.py:141-155 | this is the rank among all teams if and only if the team has a score row or nobody has |
| Ranking.UnscoredTeamIsPlacedFirst | scoring_engine/models/team.py:141-155 | two teams, one of them scored: the other has no entry, so it is reported first, and is second |
| Json.NativeExactlyWhenUnchanged | alembic/versions/004_flag_agent_data_to_json.py:62-88 | the migration accepts a value if and only if writing it as JSON and reading it back returns it unchanged |
| Migration.RollbackPartialUpgrade | alembic/versions/004_flag_agent_data_to_json.py:153-173 | an interrupted attempt is taken back to the saved column without a moment at which an original is out of reach |
| Migration.ConvertRows | alembic/versions/004_flag_agent_data_to_json.py:219-227 | finishes exactly with every row acceptable and converted in place, refuses exactly at an unacceptable one |
| Migration.UpgradeTable | alembic/versions/004_flag_agent_data_to_json.py:198-233 | from any interrupted state one table ends as a single JSON NOT NULL column with every original, and no other table is touched |
| Migration.Upgrade | alembic/versions/004_flag_agent_data_to_json.py:198-233 | an uninterrupted run finishes if and only if every row is acceptable; in every state between two statements each original is recoverable |
| Migration.UpgradeWithInterruptions | alembic/versions/004_flag_agent_data_to_json.py:198-233 | after any number of runs cut off anywhere, one run left alone finishes if and only if every row is acceptable |
| Migration.FinishPartialDowngrade | alembic/versions/004_flag_agent_data_to_json.py:176-195 | completes a pending rename, drops a half-filled column, and says whether there is still something to convert |
| Migration.Downgrade | alembic/versions/004_flag_agent_data_to_json.py:236-272 | no value is ever lost, and an uninterrupted run finishes if and only if no table still reads as pickle under its final name |
| Migration.UpgradedCanBeDowngraded | alembic/versions/004_flag_agent_data_to_json.py:198-272 | a finished upgrade is a state from which a downgrade finishes, so both together return every pickled original |
| Migration.RenamedTableBlocksDowngrade | alembic/versions/004_flag_agent_data_to_json.py:132-141 | a downgraded table blocks a further downgrade if and only if it has rows |
| Competition.Validator.FindLast | scoring_engine/competition.py:81-85 | the search loop that never stops early finds the last service of a name |
| Competition.Validator.CheckNamesUnique | scoring_engine/competition.py:118-125 | accepts exactly when no service name repeats |
| Competition.Validator.VerifyServices | scoring_engine/competition.py:67-125 | the first blue team becomes the requirement, and the three loops accept exactly the teams that conform to it |
| Competition.Validator.AddUsers | scoring_engine/competition.py:43-47 | a team's usernames are taken exactly when none repeats one seen before or another of its own |
| Competition.Validator.CheckUsers | scoring_engine/competition.py:40-47 | accepts exactly when no username repeats across all teams |
| Competition.Validator.VerifyData | scoring_engine/competition.py:32-47 | no assertion fires exactly for the competitions the loops accept |
| Competition.AcceptedIsFair | scoring_engine/competition.py:67-125 | accepted if and only if every colour is Blue, White or Red, service names are unique in each blue team, every service of a blue team has a counterpart of its name, check, points and number of environments in every other, and no username repeats; which team came first does not matter |
| Competition.AcceptedTeamsHaveEqualMaximum | scoring_engine/competition.py:80-115 | accepted blue teams have equally many services and the same maximum points per round |

## Left out

- Flask routes, login, templates, JSON formatting and server-sent events: input and output.
- Redis and the response caches (settings, windows, scoreboard): reads return current values.
- Celery transport, subprocesses, signals and the regex engine: results and matches are arbitrary inputs; a match is a fixed function of pattern and text, so the regex timeout is not modelled.
- Sleeps, pacing and back-off after a failed round (`_sleep_after_failed_round`): no table depends on them.
- Failures of the response caches after a round has landed or been cleaned up.
- The shutdown signal, which sets `last_round` from outside: a field no modelled method changes.
- Task ids grouped by team: one sequence, in the order of dispatch.
- The dictionaries the engine fills in place while polling are passed and returned as values, so aliasing between them is not captured.
- Check columns that no score depends on (reason, output, command), and the services' own fields other than team and points.
- Manual edits of checks and points in the admin API, which do not re-materialize the round: not part of a run.
- Inject scores, weights and adjustments inside the bar chart, announcements, the welcome page, anonymous team names: none of them is derived from checks or rounds, and no table modelled here depends on them.
- SLA penalties under a freeze: documented as live.
- Time zones: instants are integers. Floating-point rounding: products are exact reals.
- The pickle and JSON formats: encodings with disjoint images.
- Migrations other than 004; row statements of migration 004 are treated like its schema statements, with no rollback at an interruption.
- Tables that have none of the columns of migration 004: it skips them.
- Field-by-field type checks of the competition file, and saving it.
- Competition.Validator.VerifyData: the assertions on the presence and type of single fields, reached through the per-team and per-service checks, are left out; a competition in the model has all its fields.
- Tasks.JudgeTask: a result that is truthy but not a dict makes scoring_engine/engine/engine.py:740 raise, and the round is cleaned up; here it counts as no result, a failing check. The shipped worker always returns a dict.
- Tasks.BulkEqualsIndividual: that the two backend views describe the same payload is assumed, because both are answers of the result backend.
- Ranking.GetRankFromScores: the source's default parameter is a missing result here, filled in by `Ranking.Place`.
