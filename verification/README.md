# A verified model of the job scheduler's protocol

The scheduler keeps its jobs in the SQL table `tasks`, logs every attempt in `task_attempts`, and
passes work around as tokens on Redis lists: `q:critical`, `q:high`, `q:default`, `q:low`,
`q:processing` and `dlq:*`. API handlers, worker loops with their handler goroutines, retry pumps
and reapers share these two stores without any lock. This project models every SQL statement and
every Redis command as one atomic step, keeps each program's position between two steps as part of
the state, and proves what holds in every run: any number of programs, any interleaving, any
command failing, any program stopping anywhere.

## How it is built

- `Types`, `Stores`: rows, attempts, tokens and lists, and what each statement or command does.
- `Protocol`: the programs as positions; a run is a sequence of events (`Tick`, `Begin`, `Step`,
  `Crash`) from an empty table.
- `Lifecycle`, `Safety`, `Outcomes`: the life of one job as a small machine, the invariant of all
  reachable states, the refinement of the machine by every step, and what follows for whole runs:
  exclusion, attempt budget, absorption, bounded status changes and handler runs.
- `DeadLetterLists`, `Submission`, `Wakeups`, `Durability`, `Audit`, `Timing`: theorems about the
  dead-letter lists, racing submissions, tokens without and with crashes, the attempt log, and
  the spacing of claims. `Backoff` is the delay in 64-bit arithmetic.
- `Counterexamples`: concrete runs from an empty system that show where the code does not keep
  what one would expect of it.
- `Backends`, `Workers`, `Servers`: the Go routines as methods of classes over the mutable stores.
  Between two commands any number of steps of other programs happen. Each method is proved to
  issue the commands of the protocol in order (`At` one position before, `At` the next one after,
  in a state that `Protocol` reaches), so every theorem about runs holds for the methods. A
  backend may be `alone` (nobody else moves), with SQL or Redis that never fails (`sqlUp`,
  `redisUp`), or all three (`Quiet`); each routine then also states the new state, as far as that
  fixes it. `Iterations` and `Recovery` say what a worker iteration, a pump and a reaper leave.
- The laws (`AttemptLaw`, `PumpLaw`, `PassLaws`, `UrgencyLaw`, `SubmitLaw`, `CancelLaw`,
  `FirstPageLaw` and others) give the observable result of an operation with all numbers, statuses
  and list names written out.
- `Reaper`: an uninterrupted pass of the reaper. `Watch`, `Pagination`: the poll loop of
  `WatchJob` and the paging of `ListJobs`.

## What the code does not do

The model follows the code. Where the code and its description, or a natural expectation, differ,
the exact condition or a run that shows the difference is proved:

- Backoff (line 93 of the scheduler's README). The delay is 2^(attempts-1) seconds exactly up to 34 attempts, negative
  at 35 and zero from 56 on, although 100 attempts are accepted. The pump's `UPDATE` does not look
  at `next_run_at` again, so with two pumps a claim can come too early (`TwoPumpsBreakBackoff`);
  with one pump at a time it cannot (`OnePumpKeepsBackoff`). `BackoffIsKept` says exactly when no
  job is queued before its time.
- Cancellation of running jobs (line 95 of the scheduler's README). The finishing writes do not look at the status, so
  a job cancelled while it is executed can still succeed, retry or be buried. `CancelSettles` says
  exactly when a cancellation is final. A retrying job cannot be cancelled.
- `CancelJob` reads and updates in two statements. In between the job can be claimed, and a late
  `LREM` then removes the token of its retry (`StaleCancelLosesWakeup`). `NoLostWakeup` says
  exactly which events lose the last wake-up of a job.
- Recovery (line 84 of the scheduler's README). The reaper moves tokens but never resets a status, so a job whose
  worker stopped while executing it is never run again (`AbandonedStaysStuck`).
- The reaper moves the rightmost token, not the one it looked at; tokens keep their lists exactly
  if the priorities on `q:processing` read the same from both ends (`RoutedRightIff`). Its late
  `LREM` can remove the last token of a queued job, even if it touches only tokens whose holder is
  gone (`SlowReaperLosesToken`); it does exactly if there is no other copy (`ReaperRemoveLeaves`).
- Attempt log. `UpdateAttemptOnFailure` closes every open row of the task. If a retry is claimed
  before the failed attempt's row is closed, two rows are open and the running one gets closed
  (`LateCloseSpoilsLog`, `LateCloseHitsRunningAttempt`). `LogKeepsShape` says exactly which events
  put a log out of shape.
- `WatchJob` does not end for a cancelled job (`WatchEndsIff`), and reports `retry` and `cancelled` alike as
  `JOB_STATE_UNSPECIFIED`.
- The pump's branch for used-up attempts is dead code (`AttemptBudget`, `BatchIsRetryable`).
- Nil requests. The first log line of `SubmitJob` (cmd/api/server.go:189) reads the job before
  validation, so a nil request and a nil job, which validation would reject, panic instead:
  `SubmitJob` panics if and only if the request has no job.

## Model

| member | source | states |
|---|---|---|
| Safety.InvStep | internal/worker/worker.go:484-631 | every event of every program keeps the invariant of all rows and positions, although the finishing writes update by id only |
| Outcomes.MutualExclusion | internal/worker/worker.go:484-520 | in every reachable state a job has at most one executor, and while it has one its status is running or cancelled |
| Outcomes.AttemptBudget | internal/worker/worker.go:641-641 | 0 <= attempts <= max_attempts, queued and retry leave attempts over, deadletter leaves none; executors and pumps decide on current counts, so the pump never meets used-up attempts |
| Outcomes.StepRefines | internal/worker/worker.go:523-631 | seen from one job, each event is a stutter or a step of the lifecycle machine |
| Outcomes.RunRefines | internal/worker/worker.go:113-264 | each run, seen from one job, is a path of the lifecycle machine from its first to its last state |
| Outcomes.RowsPersist | internal/db/jobs.go:65-97 | no row is ever deleted, and type, priority, payload, max_attempts and created_at never change |
| Outcomes.SettledForever | internal/worker/worker.go:485-489 | a settled job keeps its status and attempts in every continuation and is never executed again |
| Outcomes.WhatSettles | internal/db/jobs.go:112-118 | exactly succeeded, failed, deadletter, and cancelled without an executor are settled |
| Outcomes.CancelSettles | internal/db/jobs.go:112-134 | a cancellation is final if and only if nobody is executing the job, so always for a queued one |
| Outcomes.AbandonedStaysStuck | internal/worker/worker.go:436-455 | a running job without an executor is never claimed or finished again in any run, whatever the reapers do |
| Outcomes.ChangesAreBounded | internal/worker/worker.go:1130-1135 | each status change uses up a measure: a submitted job changes status at most 4 * max_attempts + 1 times in any run |
| Outcomes.HandlerRunsAreBounded | internal/worker/worker.go:205-250 | over any run the handler of a job is started at most once per counted attempt, so at most max_attempts times |
| DeadLetterLists.DeadLettersAlways | internal/worker/worker.go:662-703 | each entry of a dead-letter list is the token of a task of that priority which has used all its attempts and can only still be marked dead |
| DeadLetterLists.DeadLetteredOnce | internal/worker/worker.go:641-750 | over any run, failed status writes included, a job is on all dead-letter lists together at most once |
| Submission.SubmittedOnce | cmd/api/server.go:233-303 | for any interleaving of submissions of one id at most one creates the row, the row keeps that call's fields, and at most one token is pushed, by that call |
| Wakeups.NoLostWakeup | internal/worker/worker.go:124-200 | a queued job has a pending token or a program that owes it one in every state of a run if and only if no event takes its last wake-up away: a crash or failed push of the only program that owes it a token while none pends, or a stale CancelJob whose LREM gets through and hits all that pend; reapers and claim errors are unrestricted |
| Wakeups.CalmRunsLoseNoWakeup | cmd/api/server.go:556-601 | the same when pushes succeed, nobody stops, priorities have a queue and CancelJob's read and update see the same status |
| Durability.QueuedJobsSurviveCrashes | internal/worker/worker.go:113-200 | with programs stopping anywhere, the tokens of a job stay protected in every state of a run if and only if no event takes its last spare copy or a held one; then a queued job not in the middle of a push has a token on a pending list or on q:processing, and q:processing holds a copy for each holder |
| Durability.CarefulRunsKeepTokens | internal/worker/worker.go:397-461 | the same under conditions on single events: no stop between a table write and its push, pushes succeed, CancelJob sees one status, reapers take only tokens whose holder is gone and remove none of a queued job |
| Durability.AttentiveRunsKeepTokens | internal/worker/worker.go:470-480 | the same when each reaper reads a job and handles its token in one step, the LPUSH and LREM fallback on queued jobs included |
| Durability.ReaperRemoveLeaves | internal/worker/worker.go:456-460 | after a reaper's LREM the job has a token on some list if and only if it had a copy besides the one removed |
| Audit.ClosedRowsAreFinal | internal/db/attempts.go:76-80 | over any run attempt rows are only added, keep started_at, and never change once closed |
| Audit.LogKeepsShape | internal/worker/worker.go:514-517 | the log has its shape in every state of a run if and only if each claim is recorded, and at a time when no earlier row is open: exactly attempts rows, one less while a claim waits to be recorded, all but the last closed as failed, and an ok row last and only on a succeeded job |
| Audit.PromptRunsKeepShape | internal/worker/worker.go:514-517 | the same shape when claim and record are one step, status write and closing are one step, and audit writes succeed |
| Audit.ClaimKeepsShapeIff | internal/db/attempts.go:30-33 | a recorded claim keeps the shape of the log if and only if no earlier row is open |
| Timing.ClaimsAreSpaced | internal/worker/worker.go:769-777 | in every run in which no pump requeues the job before its next_run_at, each claim comes at least 2^(n-1) seconds after claim n, and so at least 2^n - 1 seconds after the first, for n up to 34, and there is one claim per attempt |
| Timing.BackoffIsKept | internal/worker/worker.go:1130-1135 | a job queued for another attempt has reached its next_run_at in every state of a run if and only if no pump requeues it early, and then its claims are spaced |
| Timing.OnePumpKeepsBackoff | internal/worker/worker.go:995-1001 | with one pump at a time, in every run a job queued for another attempt has reached its next_run_at and each claim comes after the wait that follows the one before |
| Backoff.DelayIsExactIff | internal/worker/worker.go:767-772 | the delay in int64 equals 10^9 * 2^(attempts-1) ns if and only if attempts <= 34 |
| Backoff.DelayDoubles | internal/worker/worker.go:767-770 | up to 34 attempts each delay is twice the one before |
| Backoff.DelayVanishesIff | internal/worker/worker.go:770-772 | the delay is zero if and only if attempts >= 56, whatever the number |
| Backoff.DelayTurnsNegative | internal/worker/worker.go:770-772 | the 35th failure schedules its retry in the past |
| Counterexamples.TwoPumpsBreakBackoff | internal/worker/worker.go:1130-1135 | a run with two pumps, without failure or crash, in which the third claim comes one second after the first instead of three |
| Counterexamples.StaleCancelLosesWakeup | cmd/api/server.go:577-601 | a run without failed command or crash that ends with a queued job that has no pending token and no program owing it one |
| Counterexamples.SlowReaperLosesToken | internal/worker/worker.go:456-460 | a run to a state with an orphaned token of a queued job, and the late LREM that leaves the job no token on any list |
| Counterexamples.LateCloseSpoilsLog | internal/worker/worker.go:777-796 | a run without failed command or crash after which two attempt rows of a running job are open |
| Counterexamples.LateCloseHitsRunningAttempt | internal/db/attempts.go:124-128 | the same run one step on: the late close has marked the row of the running attempt as failed |
| Reaper.PassIsRun | internal/worker/worker.go:387-462 | an uninterrupted pass, as a function of the listing, is a run of the reaper's steps |
| Reaper.NeverEmpty | internal/worker/worker.go:470-480 | before item i is handled at most i tokens have left q:processing, so LMOVE never meets an empty list |
| Reaper.PassKeepsTokens | internal/worker/worker.go:387-480 | over the processing and pending lists a pass adds no copy of any token and loses none of a queued or running job |
| Reaper.PassLands | internal/worker/worker.go:473-473 | if all listed tokens are recoverable, the pass takes that many off the right end and puts the k-th from the right where the k-th from the left belongs |
| Reaper.PassEmptiesProcessing | internal/worker/worker.go:373-462 | then q:processing ends empty and each pending list grows by the number of tokens of its priority |
| Reaper.LandingHolds | internal/worker/worker.go:473-473 | a token lands on a list if and only if its mirror image in the listing has that list's priority |
| Reaper.RoutedRightIff | internal/worker/worker.go:470-473 | every token lands on the list of its own priority if and only if the priorities read the same from both ends |
| Iterations.AttemptComposes | internal/worker/worker.go:186-264 | claim, record, status write, closing, dead letter and LREM together change the row, the log and the lists as stated in one expression, for success, retry and dead letter |
| Iterations.AttemptLaw | internal/worker/worker.go:641-798 | an undisturbed attempt: attempts + 1, status succeeded, deadletter or retry by outcome and max_attempts, next_run_at 10^9 * 2^(attempts-1) ns ahead up to 34 attempts, one closed attempt row more, one copy of the token gone, a dead letter exactly after the last failure |
| Iterations.NoAttemptLaw | internal/worker/worker.go:156-200 | a malformed, unidentifiable or unclaimable item changes no table; it leaves q:processing, a malformed one for the list it came from |
| Iterations.PumpRequeues | internal/worker/worker.go:1040-1089 | an undisturbed pump queues exactly the tasks of its query and pushes one token for each on the list of its priority |
| Iterations.PumpLeavesNoneDue | internal/worker/worker.go:995-1001 | afterwards no task is due, unless the query reached its limit of 100, and no other task has changed |
| Iterations.PumpLaw | internal/worker/worker.go:995-1001 | exactly tasks in status retry with next_run_at not in the future are queued, all of them if the query returns fewer than 100 |
| Iterations.BatchIsRetryable | internal/worker/worker.go:1076-1080 | every row the pump selects has attempts left, so its branch for used-up attempts is never taken |
| Backends.RemoveFirst | internal/worker/worker.go:198-198 | LREM with count 1 drops the leftmost occurrence only |
| Backends.WithoutAt | internal/worker/worker.go:198-198 | removing one copy removes the item at the first place that holds it and keeps the rest in order |
| Backends.RemoveEvery | cmd/api/server.go:601-601 | LREM with count 0 drops every occurrence and keeps every copy of anything else |
| Backends.Backend.GetJobByID | internal/db/jobs.go:30-61 | the row with that id, or none, or an error |
| Backends.Backend.JobExists | internal/db/jobs.go:100-110 | whether the task exists, or an error |
| Backends.Backend.CreateJob | internal/db/jobs.go:65-97 | inserts the row or, if the id exists, changes nothing and says so |
| Backends.Backend.CancelJob | internal/db/jobs.go:112-134 | cancels a queued or running task and says whether it did |
| Backends.Backend.InsertAttempt | internal/db/attempts.go:19-52 | appends an open row if the keys allow it |
| Backends.Backend.UpdateAttemptOnSuccess | internal/db/attempts.go:63-99 | closes every open row of the task as ok |
| Backends.Backend.UpdateAttemptOnFailure | internal/db/attempts.go:111-148 | closes every open row of the task as failed, with the error |
| Backends.Backend.CloseOpenRows | internal/db/attempts.go:124-128 | the row-by-row update changes exactly the rows whose finished_at is NULL |
| Backends.Backend.ClaimTask | internal/worker/worker.go:485-501 | takes a queued task to running, counts the attempt, and says whether it did |
| Backends.Backend.MarkTask | internal/worker/worker.go:617-623 | writes the status by id, whatever it was, and next_run_at for a retry |
| Backends.Backend.RequeueTask | internal/worker/worker.go:1130-1156 | takes a task from retry to queued and says whether it did |
| Backends.Backend.MoveTail | internal/worker/worker.go:131-143 | moves the rightmost element of one list to the left end of another, or answers nil |
| Backends.Backend.PushJob | internal/redis/jobs.go:43-74 | pushes the job's token on the list of its priority, an error if there is none |
| Backends.Backend.SelectDue | internal/worker/worker.go:995-1001 | due tasks only, earliest first, at most 100, and none left out below the limit |
| Backends.BatchLaw | internal/worker/worker.go:995-1001 | at most 100 tasks in status retry, next_run_at not in the future, earliest first, without repetition, and none left out if there are fewer |
| Workers.Worker.ClaimJob | internal/worker/worker.go:484-520 | ends to be put back, dropped or loaded as the claim fails, misses or succeeds; undisturbed, a successful claim sets running and counts the attempt whether or not the attempt is recorded |
| Workers.Worker.MarkJobSucceeded | internal/worker/worker.go:523-558 | status write, then the closing of the attempt; undisturbed, a failed write skips the closing and changes nothing |
| Workers.Worker.HandleJobFailure | internal/worker/worker.go:634-798 | dead letter and status if the attempts are used up, else a retry after the delay, and then the closing of the attempt; undisturbed, the table gets status deadletter or retry even if Redis fails |
| Workers.Worker.RunJob | internal/worker/worker.go:236-264 | the goroutine from handler to deferred LREM |
| Workers.Worker.LoadAndRun | internal/worker/worker.go:205-264 | from a claimed job on; undisturbed, a failed read marks the job failed and removes its token, as far as these get through, and a read job runs to its end |
| Workers.Worker.Handle | internal/worker/worker.go:156-264 | one popped item: malformed, bad id, shutdown, claim error, lost claim, or a whole attempt; undisturbed it has exactly the effect of Handled |
| Workers.Worker.ProcessNext | internal/worker/worker.go:113-264 | one iteration of Start is a run of the protocol; undisturbed it handles the rightmost token of q:critical if there is one, else of q:high, else of q:default, else of q:low, and finds nothing exactly if all four are empty |
| Workers.UrgencyLaw | internal/worker/worker.go:121-146 | serving the first non-empty list of the loop is serving critical before high before default before low |
| Workers.Worker.RequeueRetryJob | internal/worker/worker.go:1115-1186 | requeue and push of one row, no error if it has left status retry |
| Workers.Worker.ProcessRetryJobs | internal/worker/worker.go:980-1112 | the pump is a run of the protocol; with nobody else moving and SQL up, whatever Redis does, every task in status retry whose next_run_at has come is queued if the query returns fewer than 100, and no other task changes; undisturbed it does to the stores what Pumped says |
| Workers.Worker.MoveJobBackToQueue | internal/worker/worker.go:470-480 | undisturbed, the rightmost token of q:processing goes to the left end of the given list, or a new copy of the given token if there is none |
| Workers.Worker.ReapToken | internal/worker/worker.go:418-461 | undisturbed, the rightmost token is moved if the job is queued, has been running untouched for more than 5 minutes or could not be read; the token is removed if the job is missing, succeeded, failed or in retry; else nothing happens |
| Workers.Worker.RecoverStuckJobs | internal/worker/worker.go:373-467 | the reaper is a run of the protocol; undisturbed, jobs queued or running untouched for more than 5 minutes are all moved and counted, younger running, deadletter and cancelled ones all left with nothing changed, tokens of missing, succeeded, failed and retrying jobs all removed; any mixture is the pass of Reaper.Pass |
| Recovery.PassLaws | internal/worker/worker.go:386-466 | for every mixture of listed items: the tables stay, the count is the number of items to move, and each pending list grows by the number of moves for its priority; and the three uniform cases |
| Recovery.ErrorLaw | internal/worker/worker.go:420-427 | an item whose job cannot be read counts as recovered and moves the rightmost token to the list of its priority |
| Servers.Server.SubmitJob | cmd/api/server.go:179-330 | panics without effect if and only if the request has no job, although validation would reject it; rejects without effect what validation rejects; succeeds whenever SQL is up, whoever else moves; a success answers the job_id of the request, or the generated one if it has none, and the task exists; undisturbed a new id gets the row with the fields of the request (3 attempts for 0) whatever Redis says, and its token, while a known one changes nothing |
| Servers.SubmitTwice | cmd/api/server.go:232-254 | two undisturbed calls with one job_id both answer it, and the second changes nothing, whatever it asks for |
| Servers.ValidationLaw | cmd/api/server.go:70-117 | accepted are exactly requests with a job, a type that is not blank, a priority, max_attempts from 0 to 100 and a payload that is empty or JSON of at most 1048576 bytes |
| Servers.Server.CancelJob | cmd/api/server.go:534-620 | answers for bad, missing and finished jobs; for any other the answer is true if and only if the UPDATE itself meets the job queued or running, whatever the read has seen; it is a success whenever SQL is up |
| Servers.Server.CancelSeen | cmd/api/server.go:577-619 | the answer is that of the UPDATE, not of the read before it |
| Servers.CancelLaw | cmd/api/server.go:586-608 | undisturbed, exactly queued and running jobs become cancelled, and of a queued one every copy of its token, and nothing else, leaves the list of its priority |
| Servers.CancelUndoesSubmit | cmd/api/server.go:587-608 | cancelling a fresh submission leaves every list as it was before it and the row cancelled |
| Watch.WatchJob | cmd/api/server.go:434-529 | the loop polls on exactly while it sees a job that is not succeeded, failed or deadletter, and has sent exactly the changes up to where it stops; a failing Send loses its own event only |
| Watch.ChangesCompress | cmd/api/server.go:485-513 | the events are the stutter-free compression of the polled statuses: every poll is told by an event with its status, in order, one event per change |
| Watch.ChangesAreTold | cmd/api/server.go:496-502 | a change is told by an event with the status, the attempts and the API state of the poll that shows it, state by state |
| Watch.ChangesNeverStutter | cmd/api/server.go:485-485 | no two neighbouring events name the same status |
| Watch.WatchEndsIff | cmd/api/server.go:521-525 | watching a settled job along any run, a poll that sees it ends the call if and only if it is not cancelled; for a cancelled one the call ends only by disconnect, database error or broken stream |
| Pagination.TokenRoundTrip | cmd/api/server.go:651-658 | the offset written into a page token is the one read back from it |
| Pagination.BuildQuery | cmd/api/server.go:660-695 | the placeholders number the arguments one by one, the clauses hold of exactly the rows the request asks for, enum values without a name not restricting, and the last two arguments are limit and offset |
| Pagination.RunQuery | cmd/api/server.go:690-699 | LIMIT and OFFSET over the rows that satisfy the clauses, newest first, whatever their order in the table; an error if one of them is negative |
| Pagination.ListJobs | cmd/api/server.go:623-766 | a first page has min(50, n) of n matching jobs for page_size 0, min(page_size, n) up to 1000 and min(1000, n) above, and a next token exactly if that bound is reached; a negative page_size is refused; any page is the slice of the newest-first listing at the offset of its token, and its jobs are of the type asked for |
| Pagination.PageLaw | cmd/api/server.go:707-740 | each job on a page is a task of the table shown with its state, attempts and times, of the type, priority and state asked for |
| Pagination.FilterLaw | cmd/api/server.go:664-688 | a row matches if and only if it agrees with each filter that is set, filter value by filter value |
| Pagination.OddTokenLaw | cmd/api/server.go:651-658 | a token that is no number counts as none; a negative one is refused |
| Pagination.AllPages | cmd/api/server.go:748-753 | following the tokens from the empty one ends after n / p + 1 pages that together show the whole listing in order, and no other pages can come out |
| Pagination.PagesHoldEachJobOnce | cmd/api/server.go:707-740 | the pages together show each matching task exactly once, by its id, and nothing else, newest first |
| Pagination.NewestFirstOrders | cmd/api/server.go:690-690 | a listing is sorted by created_at, newest first, and a permutation of the matching rows |
| Pagination.PagesIgnoreTableOrder | cmd/api/server.go:690-690 | if no two matching rows have one created_at, the answer does not depend on the order in which the table holds its rows |
| Pagination.PageCountIs | cmd/api/server.go:642-649 | the number of pages taken one by one is n / p + 1 |

## Left out

- gRPC, TLS, HTTP and SQL transport, metrics, logging, the queue-depth loop, GetJob, and the
  handler bodies: a handler run is any error or none.
- JSON and UUID libraries: a token is a record, its text form an injective encoding; whether a
  payload is JSON is a flag of the request.
- Payloads that are empty or that the JSONB column refuses: such an INSERT is an INSERT that fails.
- A statement or command that fails is taken to have had no effect; lost acknowledgements of
  commands that did take effect are not modelled.
- One clock for Go, SQL and Redis. The time of `time.Now()` in the failure path is that of the
  decision; each SQL `now()` is the time of its statement.
- The loop of `Start` does not wait for its handler goroutine; here each popped item has its own
  program, and any number of them are under way. `poolSize` bounds nothing in the code either.
- `Stop`, the `WaitGroup` and the effect of the cancelled context on writes under way: a shutdown
  is a program that stops at any step.
- Recovery liveness and strict priority order under concurrent pushes: the code has neither.
- Fairness: "terminates" means bounded status changes and handler runs, not that a run goes on.
- The order of rows with equal `created_at` in `ListJobs`, and changes between two pages: the
  table is fixed, and such rows keep its order from query to query.
- A new id is drawn by `uuid.New()`: the id is a parameter of `SubmitJob`.
- Durability.QueuedJobsSurviveCrashes: a copy that a live worker is about to remove does not count as
  spare, so the equivalence is about protection; that a protected job has a token is one direction,
  because that worker may stop before its LREM.
- Workers.Worker.ProcessNext: under interference it promises a run of the protocol and no particular
  final status, because other programs may have moved the job on by then; the theorems about runs apply.
- Workers.Worker.ProcessRetryJobs: a Scan error for a single row is not modelled.
