# Verified model of the review-case platform's core

A Dafny model of the parts of the platform that carry state or clocks, with proofs about whole runs of them.

| module | what it models |
|---|---|
| `BusinessCalendars` | business-hour arithmetic: the day loop that measures business time and the walk that spends a budget of it |
| `ReviewSla` | active time, due instant, status and escalation of a case |
| `CaseOperations` | pausing and resuming the SLA clock |
| `ProcessingQueues` | the leased job queue with its event log, and its worker |
| `JobQueues` | the background queue with priorities, dead letters and cancellation, and its worker |
| `Idempotency` | the idempotency barrier, as threads interleaved between its lock-protected sections |
| `CircuitBreakers` | the circuit breaker, with calls that report back late |
| `RateLimits` | the rolling window of a provider and the bounded table of windows by key |
| `DecisionWorkflow` | decision, freeze, approval and preparation over the shared case store |
| `AuditChains` | the hash-chained audit log |
| `SubmissionWorkspace` | submission records from draft to outcome |
| `Notifications` | outbox, delivery policy, operator actions and worker batches |
| `GoogleSync` | page-by-page reconciliation and classification of reviews |
| `Reconciliations` | queueing reconciliation jobs, keyed by the generation of a location's cursor |

`Counting`, `Selection`, `Validation` and `Wrappers` are shared helpers.

Most modules have the same three parts. A state value and its atomic transitions come first (`Step`, `Next`,
`Run`); classes mutate fields as the services do, and each of their methods is proved to take exactly such a
transition, error branches included; and lemmas prove what every run of transitions keeps. A database
transaction, or a section under a lock, is one transition. Clock readings, fresh identifiers and the answers of
the outside world are parameters. Instants and durations are integers: microseconds in the calendar modules,
with day 0 a Monday.

Transitions are functions, so each operation also has lemmas that say in plain terms what it does, independently of
how the function is written: when it succeeds, and what it leaves behind. No lemma relies on automatic induction;
where Dafny would try it, it is switched off.

Business time is defined as the number of business instants in an interval, one by one. Both calendar loops are
proved against that count, and everything said about deadlines rests on it.

## Where the code and what is said about it disagree

The model follows the code.

- `src/review_sla.py:44` speaks of a binary search; there is none. Once a case is overdue the due instant is the
  overrun, measured in business time, subtracted from the present in wall-clock time, so it moves while no
  business time passes. `ReviewSla.DueAtIsDeadlineIff` says exactly when the report is the deadline, and
  `ReviewSla.DueAtDriftsAfterHours` is an example.
- `src/notification_worker.py:36` announces retries after 1, 5, 15 and 30 minutes; they come after 1, 5 and 25
  minutes and then hourly (`Notifications.BackoffTable`).
- `max_attempts` does not bound attempts in general. A processing job exceeds it exactly when one of its leases
  expired on an attempt at or beyond the limit and the job has gone on since
  (`ProcessingQueues.AttemptsExceedLimitIff`, and `ProcessingQueues.AttemptsOutrunTheLimit` for runs that do so by
  any number); a background job exactly when it is claimed with its attempts used up, which an expiry at the limit
  and nothing else makes possible (`JobQueues.AttemptsExceedLimitIffClaimed`,
  `JobQueues.AttemptsExceedLimitIffExpired`, `JobQueues.WaitingAtLimitIffJustExpired`; runs that do so in
  `JobQueues.AttemptsOutrunTheLimit`). A notification exceeds it
  exactly when it is tried with its attempts used up, which for the worker means that a batch came to it as a dead
  letter, since a dead letter stays PENDING (`Notifications.AttemptsExceedLimitIff`,
  `Notifications.AttemptsExceedLimitIffDeadLetterTried`, `Notifications.AttemptsOutrunTheLimit`).
- Cancelling a background job refuses only running jobs, so it moves finished ones to CANCELLED
  (`JobQueues.OnlyCancelLeavesTerminal`). A finished job also keeps its idempotency key. A reconciliation key
  changes only when the cursor is stored anew, so a location whose reconciliation died or was cancelled is locked
  out of reconciliation, exactly while the job that holds the key of its cursor's generation has finished
  (`JobQueues.KeyIsSpentIffHolderFinished`, `Reconciliations.LockedOutIffHolderFinished`). Three failures in a row do
  it (`Reconciliations.ThreeFailuresLockOut`), and success never does as long as the clock moves between two stores of
  a cursor (`Reconciliations.LockedOutIffDeadOrCancelled`).
- Dead letters keep their place in the worker's order, so as many failing ones as a batch may visit keep every
  notification behind them from being tried, for ever (`Notifications.DeadLettersStarveTheRest`).
- A decision that was approved and then frozen again is pending but still names its former approver
  (`DecisionWorkflow.NamesApproverIffGranted`, `DecisionWorkflow.FreezingAgainKeepsTheName`).
- Verification of the audit chain does not notice records cut off its end. That is the only selection of its records
  it does not notice (`AuditChains.SelectionVerifiesIffPrefix`).
- After a submission the content may be edited and no longer match its stored hash, and an edit back to the
  approved content is ignored (`SubmissionWorkspace.SubmittedContentDriftsIff`). Tracking a record as SUBMITTED
  skips the checks of `mark_submitted` but is still behind an approval
  (`SubmissionWorkspace.SubmittedContentWasApproved` covers both).

## Model

| member | source | states |
|---|---|---|
| `BusinessCalendars.BusinessSecondsBetween` | src/business_calendar.py:35-46 | the day loop returns the number of business instants in [start, end), zero for an empty or reversed interval, for every valid calendar including windows that close at hour 24 |
| `BusinessCalendars.BusinessTimeWithinDay` | src/business_calendar.py:26-33 | inside one day, the count of business instants is the overlap with that day's window |
| `BusinessCalendars.BusinessTimeOfDay` | src/business_calendar.py:26-46 | a whole day counts its office hours if its weekday is a workday and the day is no holiday, and nothing otherwise |
| `BusinessCalendars.BusinessTimeOfHour` | src/business_calendar.py:26-46 | each hour of such a day counts wholly from the start hour up to the end hour, and not at all outside |
| `BusinessCalendars.Validate` | src/business_calendar.py:15-24 | accepts exactly the calendars with at least one workday, weekdays 0 to 6 only, and hours in order up to 24 |
| `BusinessCalendars.AddBusinessHours` | src/business_calendar.py:48-59 | the walk ends for every valid calendar and any holidays, at the least instant by which the budget of business time has elapsed since the start |
| `BusinessCalendars.NextBusinessInstant` | src/business_calendar.py:15-27 | under a validated calendar there is a business instant at or after every instant: the reason the walk ends |
| `BusinessCalendars.BudgetRunsOut` | src/business_calendar.py:48-59 | every budget runs out at some instant, and there is a least one |
| `BusinessCalendars.AddingAndMeasuringInvert` | src/business_calendar.py:35-59 | measuring up to the due instant gives the budget back; adding what was measured up to t gives t back exactly when t closes a business instant, and an earlier instant otherwise |
| `BusinessCalendars.DueByIffElapsed` | src/business_calendar.py:35-59 | a budget has run out by t exactly when that much business time has elapsed by t |
| `BusinessCalendars.DueFromLaterStart` | src/business_calendar.py:48-59 | restarting the walk at any instant before the due one, with what is left of the budget, ends at the same instant |
| `BusinessCalendars.BudgetsAdd` | src/business_calendar.py:48-59 | spending one budget after another ends where spending their sum does |
| `BusinessCalendars.BusinessTimeIsWallClockIff` | src/business_calendar.py:35-46 | business time never exceeds wall-clock time, and equals it exactly over stretches without an idle instant |
| `BusinessCalendars.DefaultCalendarIsWallClock` | src/business_calendar.py:62-64 | under the default calendar measuring is subtraction and adding is addition |
| `Counting.CountSplits` | src/business_calendar.py:35-46 | business time, being a count, is additive at every split point |
| `Counting.CountGrows` | src/business_calendar.py:35-46 | and never falls when the end moves later |
| `ReviewSla.DueAtValue` | src/review_sla.py:40-50 | the due instant of a running case: its deadline up to the deadline, afterwards the present less the business time since the deadline |
| `ReviewSla.DueAtIsDeadlineIff` | src/review_sla.py:40-50 | the reported due instant is the least instant at which business time since creation reaches the target plus the paused time, exactly as long as no idle instant has passed since then |
| `ReviewSla.DefaultDueAtNeverMoves` | src/review_sla.py:33-50 | without a configured calendar the due instant is creation plus target plus paused time at every later instant, overdue or not |
| `ReviewSla.DueHoursByPriority` | src/review_sla.py:7-50 | without a configured calendar a CRITICAL, HIGH, NORMAL or LOW case falls due 4, 12, 24 or 72 hours after creation, whenever it is looked at |
| `ReviewSla.OtherPrioritiesAreNormal` | src/review_sla.py:32 | every other priority is reported as NORMAL is |
| `ReviewSla.LabelsByPriority` | src/review_sla.py:51-56 | without a configured calendar the labels change at 3, 4 and 5 hours for CRITICAL, 9, 12 and 15 for HIGH, 18, 24 and 30 for NORMAL and 54, 72 and 90 for LOW |
| `ReviewSla.LabelsOutsideTheClock` | src/review_sla.py:33-60 | a case without a creation instant is unknown, a paused one is paused, and the report says whether it is paused and whether a calendar other than the default applies |
| `ReviewSla.NegativePausesCountNothing` | src/review_sla.py:41 | a paused total below zero counts as none |
| `ReviewSla.DueAtDriftsAfterHours` | src/review_sla.py:45-46 | with office hours 9 to 17, on every weekday a critical case opened at 9 falls due at 13 and at 18 is reported due at 14 |
| `ReviewSla.ReportMeasuresDistance` | src/review_sla.py:43-56 | remaining time is the signed business distance to the deadline, and each status and escalation level holds exactly on its range of that distance |
| `CaseOperations.CaseRecord.PauseSla` | src/case_operations_service.py:32-36 | starts a pause with its reason, or refuses without change when one is open |
| `CaseOperations.CaseRecord.ResumeSla` | src/case_operations_service.py:48-57 | adds the business time of the open pause and closes it, or refuses without change |
| `CaseOperations.PausedIffLastRequestPauses` | src/case_operations_service.py:32-57 | along every run the case is paused exactly when the last request was a pause, refused ones included |
| `CaseOperations.PausedTotalCountsFrozenTime` | src/case_operations_service.py:48-57 | along every run in time order the paused total, open pause included, is the number of business instants at which the case was frozen |
| `CaseOperations.RemainingCountsRunningTime` | src/review_sla.py:41-43 | along every run paused time never exceeds business time since creation, and remaining time is the target less the business time that ran |
| `CaseOperations.RemainingFallsByRunningTime` | src/review_sla.py:41-49 | whatever requests follow, remaining time falls by exactly the business time that ran meanwhile |
| `CaseOperations.RemainingStandsStill` | src/case_operations_service.py:32-57 | remaining time is constant during a pause, and a pause or resume leaves it unchanged at its own instant |
| `CaseOperations.EscalationNeverGoesBack` | src/review_sla.py:51-56 | along every run, pauses included, escalation only rises and the status shown while running only worsens |
| `CaseOperations.RunKeepsDeadline` | src/review_sla.py:45-50 | after every run, a running case reports its deadline exactly while no idle instant has passed since the deadline |
| `CaseOperations.PauseMovesDeadline` | src/case_operations_service.py:48-57 | a pause moves the deadline by the business time it lasted |
| `CaseOperations.PausedReportIsDeadlineOfResume` | src/review_sla.py:41-50 | while a case with time remaining is paused, the due instant reported is the deadline a resume at that very instant would set |
| `CaseOperations.PausedReportMovesAlong` | src/review_sla.py:41-50 | during a pause the reported due instant moves by the business time that passes, or by wall-clock time once no time remains |
| `ProcessingQueues.EveryRunIsGood` | src/processing_jobs.py:22-64 | in every reachable state replaying each job's events rebuilds its row, exactly the processing rows have an owner and a lease, attempts stay within the limit plus the expiries, and keys are unique |
| `ProcessingQueues.ReplayableHistory` | src/processing_jobs.py:64 | a history that replays begins with its enqueue event, chains each from-status to the previous to-status, counts its claims as attempts and never continues after completed or failed |
| `ProcessingQueues.LogTellsTheRow` | src/processing_jobs.py:22-64 | the log of every reachable queue is such a history, ends in the row's status, and a failed job without an expiry made exactly its limit of attempts |
| `ProcessingQueues.ConsecutiveStepsOnAJob` | src/processing_jobs.py:37-63 | between two steps on a job nothing intervenes: a claim is followed by its own worker's report or by an expiry no earlier than the end of its lease, and a retry waits for its delay |
| `ProcessingQueues.NextStepOnAJobIff` | src/processing_jobs.py:37-63 | whatever happens to other jobs, a step on a job can be taken exactly when it may follow the last one: from the instant the lease ends or the retry is due, and never after a failure with the attempts used up |
| `ProcessingQueues.RowTellsLastStep` | src/processing_jobs.py:32-62 | the row tells the last step on the job: status, attempt, owner, lease, schedule and the error cut at 4000 characters |
| `ProcessingQueues.LogTracesTheRun` | src/processing_jobs.py:64 | the log holds one event for each step, in the order of the steps, with its job, kind, worker and time |
| `ProcessingQueues.RowIsOfItsRequest` | src/processing_jobs.py:32 | every row is for ever the row of the request it was inserted for: organization, key, payload, kind, limit and creation time |
| `ProcessingQueues.TerminalIsFinal` | src/processing_jobs.py:42-62 | the row and the log of a completed or failed job never change again |
| `ProcessingQueues.AttemptsOutrunTheLimit` | src/processing_jobs.py:60-63 | from any ready job, any number of claims whose leases expire is a legal run that leaves the job pending with that many more attempts; the exact condition is the next row |
| `ProcessingQueues.AttemptsExceedLimitIff` | src/processing_jobs.py:37-63 | in every reachable state a job has exceeded its limit exactly when some lease of it expired at or beyond the limit and was not the last event, and a pending job has used its limit up exactly when such an expiry was |
| `ProcessingQueues.RepeatedRequestFindsItsJob` | src/processing_jobs.py:27-31 | once a job holds a key, whatever the queue does later, a request with that key is answered by that job if the payload is the same and by a conflict otherwise |
| `ProcessingQueues.RepeatingARequestIsIdempotent` | src/processing_jobs.py:27-32 | a request with a key that was accepted is answered by its own job when it is repeated, at any later time |
| `ProcessingQueues.ProcessingQueue.Enqueue` | src/processing_jobs.py:22-32 | inserts exactly when the request is acceptable and no row holds its key; otherwise returns the holder exactly when its payload is the same, reports a conflict exactly when it differs, and changes nothing |
| `ProcessingQueues.ProcessingQueue.Recover` | src/processing_jobs.py:60-63 | puts back exactly the expired rows, one logged expiry each, and counts them |
| `ProcessingQueues.ProcessingQueue.ClaimNext` | src/processing_jobs.py:37-42 | recovers every expired lease, then claims a first ready job in due and creation order and changes no other, or returns none exactly when nothing is ready |
| `ProcessingQueues.ProcessingQueue.CompleteJob` | src/processing_jobs.py:52-59 | succeeds exactly for the worker that owns the running job, and is that step; otherwise changes nothing |
| `ProcessingQueues.ProcessingQueue.FailJob` | src/processing_jobs.py:44-46 | likewise, rescheduling below the limit and failing for good at it |
| `ProcessingQueues.ProcessingQueue.CheckOwned` | src/processing_jobs.py:55-59 | accepts exactly the owner of a processing row and tells a missing job from a foreign one |
| `ProcessingQueues.RunOnce` | src/processing_jobs.py:69-76 | one round is the recovery of every expired lease, the claim of a first job in line and the one report its handler's outcome calls for, or the recovery alone when nothing is ready; the job ends completed exactly when there is a handler and it returns, and otherwise retried after the delay or failed, with the error on record |
| `JobQueues.RunStaysWithinLimits` | src/background_jobs.py:154-212 | along every run attempts equal claims, exceed the limit at most by the expired leases, a dead letter has used its limit, and exactly the running jobs have an owner and a lease |
| `JobQueues.AttemptsExceedLimitIffClaimed` | src/background_jobs.py:165-189 | a job comes to exceed its limit exactly when it is claimed with its attempts used up |
| `JobQueues.AttemptsExceedLimitIffExpired` | src/background_jobs.py:154-189 | equivalently, when one of its leases expires at the limit and it is claimed again afterwards |
| `JobQueues.WaitingAtLimitIffJustExpired` | src/background_jobs.py:154-212 | a waiting job has used its limit up exactly when the last step on it was an expiry at the limit |
| `JobQueues.AttemptsOutrunTheLimit` | src/background_jobs.py:154-189 | from any ready job, any number of claims whose leases expire is a legal run that leaves the job waiting with that many more attempts |
| `JobQueues.ConsecutiveStepsOnAJob` | src/background_jobs.py:154-242 | a claim is followed by its own worker's report or by an expiry no earlier than the end of its lease, nobody cancels it meanwhile, and a retry waits for its delay |
| `JobQueues.NextStepOnAJobIff` | src/background_jobs.py:154-242 | whatever happens to other jobs, a step on a job can be taken exactly when it may follow the last one and its own arguments are in order |
| `JobQueues.RowTellsLastStep` | src/background_jobs.py:122-240 | the row tells the last step on the job: state, attempts, owner, lease, schedule and the error cut at 2000 characters |
| `JobQueues.JobIsOfItsRequest` | src/background_jobs.py:122-134 | every job is for ever the job of the request it was inserted for |
| `JobQueues.RunKeepsKeys` | src/background_jobs.py:87-121 | along every run idempotency keys stay unique within an organization |
| `JobQueues.RepeatedRequestFindsItsJob` | src/background_jobs.py:112-121 | once a job holds a key, whatever the queue does later, a request with that key is answered by that job if the payload is the same and by a conflict otherwise |
| `JobQueues.RepeatingARequestIsIdempotent` | src/background_jobs.py:112-134 | a request with a key that was accepted is answered by its own job when it is repeated, at any later time |
| `JobQueues.OnlyCancelLeavesTerminal` | src/background_jobs.py:214-224 | a finished job keeps its state exactly when it was cancelled already or nobody cancels it later, and nothing else about it changes |
| `JobQueues.FinishedJobSpendsItsKey` | src/background_jobs.py:112-121 | once the holder of a key has finished, no later state admits another job with that key or a claim of the holder |
| `JobQueues.KeyIsSpentIffHolderFinished` | src/background_jobs.py:112-121 | a key is spent, no later run claiming a job with it, exactly when the job that holds it has finished; otherwise some run claims one |
| `JobQueues.ReachableKeyIsSpentIffHolderFinished` | src/background_jobs.py:103-212 | the same for every reachable table, whose keys are unique and whose running jobs are exactly the leased ones |
| `JobQueues.FailuresEndInDeadLetter` | src/background_jobs.py:194-212 | a ready job that fails as often as its limit still allows is a dead letter that keeps its key |
| `JobQueues.RecoveryIsARun` | src/background_jobs.py:154-163 | the one-statement recovery equals a run of single expiries, one for each expired lease |
| `JobQueues.JobQueue.Enqueue` | src/background_jobs.py:103-134 | inserts exactly when allowed; a repeated key returns its holder exactly when the payload is the same, whatever became of it, and a conflict exactly when it differs |
| `JobQueues.JobQueue.RecoverExpiredLeases` | src/background_jobs.py:154-163 | requeues exactly the expired leases and counts them |
| `JobQueues.JobQueue.ClaimNext` | src/background_jobs.py:165-189 | claims, after recovery, a ready job of highest priority and then earliest creation, or none exactly when nothing is ready |
| `JobQueues.JobQueue.SucceedJob` | src/background_jobs.py:226-242 | the owner alone finishes the running job, releasing its lease; otherwise nothing changes |
| `JobQueues.JobQueue.FailJob` | src/background_jobs.py:194-212 | the owner alone moves the job on, to a dead letter at the limit and to a delayed retry below it |
| `JobQueues.JobQueue.CancelJob` | src/background_jobs.py:214-224 | cancels exactly the organization's own jobs that are not running |
| `JobQueues.RunOnce` | src/background_jobs.py:267-278 | one round is recovery, the claim of a first job in line and the report its handler's outcome calls for; a failure that a negative delay keeps from being reported leaves the job claimed and ends in an error |
| `JobQueues.RoundSettlesTheJob` | src/background_jobs.py:267-278 | the claimed job ends succeeded exactly when there is a handler and it returns, and otherwise retried after the delay or dead, with the error on record |
| `Idempotency.IdempotencyStore.Enter` | src/resilience.py:130-143 | makes the caller the owner exactly for a new key, lets a matching fingerprint join, and refuses a differing one or empty arguments at once |
| `Idempotency.EveryInterleavingIsConsistent` | src/resilience.py:130-163 | in every interleaving each thread's position agrees with the entry of its key, a key has one owner, and every entry has one |
| `Idempotency.OneExecutionPerKey` | src/resilience.py:115-163 | in every reachable state the operation of a key was started by exactly one thread, and everyone who finished has that thread's result or error |
| `Idempotency.FinishedWithTheOperationsOutcome` | src/resilience.py:144-163 | what everyone who finished on a key has is the very result or error with which its one operation ended |
| `Idempotency.RefusedIffDifferent` | src/resilience.py:131-141 | a caller is refused exactly when an argument is empty or its fingerprint is not the one its key was first used with |
| `Idempotency.NobodyIsStuck` | src/resilience.py:144-163 | a thread asleep on an entry sleeps only while the entry is open and its owner is in its operation or about to publish; every other unfinished thread has a step of its own |
| `Idempotency.PublishReleasesTheSleepers` | src/resilience.py:147-163 | publishing wakes every sleeper of the key, whose next check returns the published outcome |
| `Idempotency.RunsAreBounded` | src/resilience.py:130-163 | while no caller enters, a run has at most as many steps as there is work, plus two for every wake-up for nothing |
| `Idempotency.EverybodyGetsDone` | src/resilience.py:130-163 | from every reachable state, without such wake-ups and new callers, a run ends after at most two steps for each caller, and it cannot go on exactly when everybody has returned, raised or been refused |
| `Idempotency.OutcomesAreFinal` | src/resilience.py:146-157 | the outcome of a key never changes |
| `CircuitBreakers.CircuitBreaker.BeforeCall` | src/resilience.py:205-219 | admits exactly while closed or as the first probe after the recovery time, and leaves the state that goes with it |
| `CircuitBreakers.CircuitBreaker.Success` | src/resilience.py:221-226 | closes the circuit and forgets its failures, whatever state a late report finds |
| `CircuitBreakers.CircuitBreaker.Failure` | src/resilience.py:228-234 | counts the failure and opens when half open or at the threshold |
| `CircuitBreakers.ClosedIffShortStreak` | src/resilience.py:205-234 | in every interleaving the circuit is closed exactly when fewer than the threshold of failures were reported since the last success, late reports included |
| `CircuitBreakers.EveryRunKeepsInv` | src/resilience.py:205-234 | closed exactly when failures are below the threshold, with failures equal to the streak of the run |
| `CircuitBreakers.OneProbeBetweenReports` | src/resilience.py:211-219 | until some call reports, a circuit that is not closed admits at most one call, and none when its probe is already out |
| `CircuitBreakers.NoCallUntilRecovery` | src/resilience.py:205-234 | from an opening until a success, a call is admitted only the recovery time after it and after every failure reported since |
| `CircuitBreakers.OpeningHoldsCallsBack` | src/resilience.py:205-234 | the same for every run from the start: once the threshold of failures is reported, calls wait out the recovery time |
| `CircuitBreakers.AdmitsIff` | src/resilience.py:205-234 | in every run under a clock that never goes back, a call is admitted exactly when fewer than the threshold of failures were reported since the last success, or the last of them is at least the recovery time ago and no probe was let through since |
| `CircuitBreakers.RecoversOnTime` | src/resilience.py:205-219 | after an opening and until a call begins or reports, a call is admitted exactly from the recovery time on |
| `CircuitBreakers.ProbeDecides` | src/resilience.py:221-234 | a probe that succeeds closes the circuit, one that fails opens it for another recovery time |
| `CircuitBreakers.Configure` | src/resilience.py:182-184 | accepts exactly a threshold of at least one and a positive recovery time |
| `RateLimits.WindowIsExact` | src/resilience.py:305-322 | with a clock that never goes back, no window holds more than the limit of admitted calls, and a call is refused exactly when its window is full |
| `RateLimits.MakeWindow` | src/resilience.py:295-302 | accepts exactly a limit of at least one and a positive width |
| `RateLimits.RunKeepsTracking` | src/resilience.py:313-322 | along every run the remembered hits and all admitted calls agree on what is recent |
| `RateLimits.LimiterIsTheWindow` | src/resilience.py:313-322 | dropping old hits from the front of the queue decides as filtering them does |
| `RateLimits.ThroughputLimiter.Allow` | src/resilience.py:313-322 | after any calls with a clock that never went back, admits exactly when the window that ends now has room |
| `RateLimits.RateLimiter.Allow` | src/security_hardening.py:103-117 | decides as the key's own window since the key entered the table, keeps at most the maximum of keys, and evicts only a least recently seen key, only from a full table and only for a new key |
| `RateLimits.RateLimiter.Evict` | src/security_hardening.py:112-114 | removes one key, of least recent last hit, and no other |
| `RateLimits.LastSeenIsLatest` | src/security_hardening.py:113 | the last hit of a key is its latest one |
| `RateLimits.EvictedIsLeastRecent` | src/security_hardening.py:112-114 | no key with hits was last seen before the evicted one |
| `RateLimits.LetThroughIsOwnWindow` | src/security_hardening.py:103-117 | in a run of calls over many keys, what is let through for a key between two evictions of it is what its own window lets through |
| `RateLimits.KeyedWindowIsBounded` | src/security_hardening.py:103-117 | in such a run no window holds more than the limit of calls of the key that were let through |
| `DecisionWorkflow.ModificationInvalidatesIff` | src/decision_workspace.py:116-123 | a frozen, pending or approved decision is invalidated exactly when its dossier changed, and then cannot be approved |
| `DecisionWorkflow.InvalidationIff` | src/decision_workspace.py:116-123 | a decision is invalidated, with instant and reason, exactly when it is frozen, pending or approved and the dossier hashes differently, and is otherwise returned as it is |
| `DecisionWorkflow.ApprovalGate` | src/decision_workspace.py:88-113 | whatever record and snapshot they are given, the gates let through exactly an approver role, a pending decision, its own organization and an untampered dossier with the decision's hash |
| `DecisionWorkflow.EveryRunKeepsInv` | src/case_decision_service.py:35-145 | every run keeps the mirror of case and decision, the grounding of decisions in snapshots and the approvals on record |
| `DecisionWorkflow.ApprovedDecisionsAreGrounded` | src/case_decision_service.py:35-145 | in every reachable store a case's status is its current decision's, and an approved decision carries the hash of a frozen dossier about itself and an approval event by an approver role with that hash |
| `DecisionWorkflow.CreateSucceedsIff` | src/decision_workspace.py:80-85 | a decision can be created for every case whose rationale says something |
| `DecisionWorkflow.DecisionSaysWhatWasCreated` | src/case_decision_service.py:35-64 | creation makes the new draft the case's decision, and its kind, rationale and author are for ever those given |
| `DecisionWorkflow.FreezeSucceedsIff` | src/case_decision_service.py:66-114 | in every reachable store freezing succeeds exactly with a current decision, its review and a person, and records the case, the review and the decision of that moment |
| `DecisionWorkflow.ApproveSucceedsIff` | src/case_decision_service.py:116-145 | in every reachable store approval succeeds exactly while the case is in human review and the role is OWNER, ADMIN or ANALYST, and names the person on decision and event |
| `DecisionWorkflow.PrepareSucceedsIff` | src/case_submission_service.py:29-53 | in every reachable store preparation succeeds exactly on a case that is ready, and stores its submission |
| `DecisionWorkflow.SubmissionsAreThePrepared` | src/case_submission_service.py:29-53 | along every run the store holds exactly the submissions that were prepared |
| `DecisionWorkflow.SubmissionFollowsApproval` | src/case_submission_service.py:29-53 | a submission can be prepared only behind a granted approval of the case's current decision, with no successful create or freeze of that case since, and of the very decision that stands |
| `DecisionWorkflow.ApprovalStandsWhileUnsuperseded` | src/case_decision_service.py:116-145 | conversely an approval stands, with the same decision, through every run without such a create or freeze |
| `DecisionWorkflow.ApprovalStandsIffUnsuperseded` | src/case_decision_service.py:35-114 | a step ends an approved standing exactly when it is a successful create or freeze of that case |
| `DecisionWorkflow.NamesApproverIffGranted` | src/decision_workspace.py:88-113 | after every run a current decision, pending or not, names an approver exactly when it was granted at some time since it was created: a pending one exactly when it was approved and frozen again |
| `DecisionWorkflow.FreezingAgainKeepsTheName` | src/case_decision_service.py:66-114 | a successful freeze of an approved standing leaves a pending decision that names the former approver |
| `DecisionWorkflow.CaseStore.CreateDecision` | src/case_decision_service.py:35-64 | stores a new draft as the case's current decision, or refuses a blank rationale without change |
| `DecisionWorkflow.CaseStore.FreezeCase` | src/case_decision_service.py:66-114 | stores the snapshot, the pending decision and the case fields together, or nothing |
| `DecisionWorkflow.CaseStore.ApproveCase` | src/case_decision_service.py:116-145 | approves and records the event exactly when the gate of role, status and integrity lets it through |
| `DecisionWorkflow.CaseStore.PrepareSubmission` | src/case_submission_service.py:29-53 | prepares exactly for a case whose current decision is approved |
| `AuditChains.AuditChain.Append` | src/observability.py:150-172 | appends one record linked to the last hash, keeping a sound chain sound, or refuses missing identity fields |
| `AuditChains.AuditChain.Verify` | src/observability.py:174-186 | accepts exactly the chains in which every record has its position, its predecessor's hash and its own digest |
| `AuditChains.VerifiesIffBuilt` | src/observability.py:150-186 | a chain verifies exactly when it is the one built by appending its bodies |
| `AuditChains.SameHeadSameChain` | src/observability.py:174-186 | two chains that verify and end in the same hash are identical |
| `AuditChains.NotedHashPinsHistory` | src/observability.py:174-186 | a later chain that verifies and contains a hash noted earlier begins with the noted chain |
| `AuditChains.SoundPrefix` | src/observability.py:174-186 | every prefix of a chain that verifies also verifies; the next row says that nothing else does |
| `AuditChains.SelectionVerifiesIffPrefix` | src/observability.py:174-186 | records kept from a chain that verifies, in whatever order and however often, verify exactly when they are a prefix of it |
| `SubmissionWorkspace.ApprovedContentIsIntact` | src/submission_workspace.py:72-138 | in every run of operations and edits an approved record's content hashes to its stored hash, and exactly the records approved or past approval name an approver |
| `SubmissionWorkspace.CreatedRecordsStayIntact` | src/submission_workspace.py:59-138 | from creation on a record keeps what it was created for, and that invariant holds |
| `SubmissionWorkspace.CreateSucceedsIff` | src/submission_workspace.py:59-69 | a record is created exactly for a named case, organization and person with content that says something, as an unprepared draft |
| `SubmissionWorkspace.SucceedsIff` | src/submission_workspace.py:72-138 | in every reachable record an operation succeeds exactly from the statuses it leads from and with its own arguments in order, and leads to its own status; marking never fails on integrity |
| `SubmissionWorkspace.WritesExactly` | src/submission_workspace.py:72-138 | what each successful operation writes, and that it leaves the rest of the record alone |
| `SubmissionWorkspace.IntegrityGates` | src/submission_workspace.py:88-127 | whatever record they are given, approval and marking refuse content that does not match its stored hash |
| `SubmissionWorkspace.CreatedRecordsCanBeSubmitted` | src/submission_workspace.py:59-127 | a created record can be prepared, approved and marked as submitted with its content unchanged |
| `SubmissionWorkspace.SubmittedContentWasApproved` | src/submission_workspace.py:88-138 | marking or tracking as submitted succeeds only on the content of the last successful approval, by a role that may approve, unchanged ever since |
| `SubmissionWorkspace.OutcomesAreFinal` | src/submission_workspace.py:130-138 | REJECTED and CLOSED are never left |
| `SubmissionWorkspace.NoWayBack` | src/submission_workspace.py:72-138 | a record past approval never returns to an editable or approvable status |
| `SubmissionWorkspace.SubmittedContentDriftsIff` | src/submission_workspace.py:104-114 | past approval the stored hash stays, and the content matches it at the end exactly when it did and every edit hashed like it |
| `Notifications.QuietWindowWraps` | src/notification_policy.py:49-54 | the quiet window, wrapping midnight or not, is the set of times less than its length after its start, modulo a day |
| `Notifications.BackoffTable` | src/notification_worker.py:35-37 | the delay is 60, 300 and 1500 seconds, then 3600 for every later attempt |
| `Notifications.WorkerKeepsToThePolicy` | src/notification_worker.py:57-67 | the worker changes a notification only when the policy lets it through, external channels included, outside the quiet window, and not before its scheduled instant |
| `Notifications.WorkerTriesIff` | src/notification_worker.py:57-67 | with quiet hours, the worker tries exactly what is due, enabled by level and channel, allowed outside, and outside the window around the clock |
| `Notifications.WorkerTriesWithoutQuietHours` | src/notification_worker.py:57-67 | without them, exactly what is due and enabled |
| `Notifications.TryLeadsTo` | src/notification_worker.py:68-93 | a try counts an attempt; an in-app notification, or an external one the channel accepts, is sent; another is retried after 60, 300, 1500 and then 3600 seconds below its limit and dead at it, with its error |
| `Notifications.EveryRunKeepsNoDuplicates` | src/notification_service.py:86-132 | in every run of operations and batches no two pending notifications of one organization share a dedupe key, and SENT and CANCELLED are final |
| `Notifications.StepLeadsTo` | src/notification_service.py:100-132 | a pending notification is cancelled exactly by a cancellation, and sent exactly by a mark or a delivery the channel accepts, with the actor and the instant |
| `Notifications.FailedDeliveryRecords` | src/notification_service.py:115-120 | an operator's delivery that fails records an attempt and the error of the delivery layer, and nothing for any other error |
| `Notifications.CreateSucceedsIff` | src/notification_outbox.py:45-66 | a notification is created exactly for a known channel with target, subject and body that say something, pending, with no attempts of three |
| `Notifications.RetryWaitsForItsTime` | src/notification_worker.py:58-61 | until its scheduled instant no batch tries a notification again |
| `Notifications.DeadLetteredIffLimitReached` | src/notification_worker.py:68-85 | without operator deliveries a pending notification is dead-lettered exactly from its attempt limit on, and scheduled exactly between its first attempt and the limit |
| `Notifications.AttemptsOutrunTheLimit` | src/notification_worker.py:75-77 | failing batches raise the attempts by any number while the notification stays pending; the exact conditions are the next two rows |
| `Notifications.AttemptsExceedLimitIff` | src/notification_worker.py:57-85 | in any run attempts come to exceed the limit exactly when a batch or an operator tried the notification with its attempts used up |
| `Notifications.AttemptsExceedLimitIffDeadLetterTried` | src/notification_worker.py:54-85 | without operator deliveries, exactly when a batch came to it after it was dead-lettered, under a policy that lets it through |
| `Notifications.NotificationService.QueueNotification` | src/notification_service.py:86-98 | queues exactly a permitted, well-formed notification without a pending duplicate, returns the duplicate otherwise, or refuses without change |
| `Notifications.NotificationService.CancelNotification` | src/notification_service.py:100-106 | succeeds exactly on the organization's own pending notifications |
| `Notifications.NotificationService.DeliverNotification` | src/notification_service.py:108-124 | delivers exactly what the policy and the channel accept; a failure is recorded when it is a delivery error and leaves no trace otherwise |
| `Notifications.NotificationService.MarkNotificationSent` | src/notification_service.py:126-132 | succeeds exactly on the organization's own pending notifications |
| `Notifications.NotificationService.VisitCandidates` | src/notification_worker.py:54-94 | treats the first candidates in scheduled and creation order up to the limit, each by its own verdict, and nothing else |
| `Notifications.BatchStopsShort` | src/notification_worker.py:54-57 | a batch does not reach a notification that has as many candidates strictly ahead of it as the batch may visit |
| `Notifications.DeadLettersStarveTheRest` | src/notification_worker.py:54-85 | as many failing dead letters as a batch may visit, created before the instant that orders another notification, keep it untouched in every run that does not operate on them or on it |
| `Notifications.NotificationService.RunOnce` | src/notification_worker.py:47-94 | a batch is one transition of the outbox; processed is sent plus retried plus dead-lettered, and processed plus skipped is the smaller of limit and candidates |
| `Notifications.Circumstances.TallyAddsUp` | src/notification_worker.py:56-94 | every notification a batch comes to is counted in exactly one way |
| `Notifications.Circumstances.TallyTellsTheOutbox` | src/notification_worker.py:56-94 | the counts are those of the notifications sent, left as they were, and tried in vain below and at their limit |
| `GoogleSync.SyncEngine.Observe` | src/google_business_profile.py:275-281 | classifies a review as new, updated or unchanged against the cache, and caches its fingerprint |
| `GoogleSync.SyncEngine.HandleEvent` | src/google_sync_engine.py:195-197 | observes and records the one review that the event names |
| `GoogleSync.SyncEngine.ReconcilePage` | src/google_sync_engine.py:206-213 | observes and records the page's reviews in order, then stores the next token as received |
| `GoogleSync.SyncEngine.HandleReconcile` | src/google_sync_engine.py:199-213 | serves the page of the stored token, the first for an absent one, and changes nothing when the listing does not know it |
| `GoogleSync.CursorWalksThePages` | src/google_sync_engine.py:199-213 | whatever other jobs come between, a location's reconcile jobs observe its pages one after the other, starting over after the last |
| `GoogleSync.CursorStandsAtItsPage` | src/google_sync_engine.py:204-213 | the stored token is always that of the page the location's jobs have got to |
| `GoogleSync.FullCycleRecordsTheListing` | src/google_sync_engine.py:199-213 | as many reconcile jobs as there are pages, from an empty cursor, observe the whole listing once in order and empty the cursor again |
| `GoogleSync.FullCycleRecordsEachReviewOnce` | src/google_sync_engine.py:206-213 | in a full cycle each review that the listing holds once is reconciled exactly once |
| `GoogleSync.EveryObservationIsRecorded` | src/google_sync_engine.py:187-217 | along every run cache and results record every observation of a review, once and in order |
| `GoogleSync.NewExactlyOnce` | src/google_business_profile.py:275-281 | over a whole run each observed review is classified new exactly once, first, and later as updated exactly when its fingerprint changed |
| `Reconciliations.EnqueueReconciliation` | src/google_sync_engine.py:163-171 | queues the request of the location's present generation, and returns the holder of its key, finished or not, instead of a new job |
| `Reconciliations.LockedOutIffHolderFinished` | src/google_sync_engine.py:163-171 | in every reachable state of queue and cursors, no job for a location can be claimed again under its present generation exactly when the job that holds that generation's key has finished |
| `Reconciliations.LockedOutUntilCursorChanges` | src/google_sync_engine.py:163-171 | a locked-out location is locked out in every later state with the same generation; another generation lets it in exactly when no finished job holds its key |
| `Reconciliations.ThreeFailuresLockOut` | src/google_sync_engine.py:163-171 | from every sane state in which nobody holds the present key, a reconciliation queued and failing three times locks its location out |
| `Reconciliations.LockedOutIffDeadOrCancelled` | src/google_sync_engine.py:163-213 | when every successful handler stores the cursor first, under a clock that moves between two stores, the holder of the present key has never succeeded, and the location is locked out exactly when that holder is a dead letter or was cancelled |

## Left out

- Time zones, daylight saving, ISO parsing, float rounding and the range of dates: all instants lie on one timeline with a fixed offset, in whole microseconds. Holidays are days, so a holiday written in a form other than the canonical one is not represented.
- The calendar's loops on a calendar that was not validated: a valid one is their precondition, as the services build calendars through `validate`.
- `CaseSLAService`, assignment of cases and the emission of audit events by the services.
- PostgreSQL adapters, SQL text and the loading of records from a repository: the stores are the in-memory ones and the SQLite tables.
- Payload bodies, request and correlation identifiers and event details: a fingerprint stands for a payload.
- Order of events as `events()` lists them: it sorts by time and then by a random identifier, so an expiry and a claim made at one clock reading may be listed out of order. The replay is of insertion order.
- SHA-256, HMAC and canonical JSON: digests are functions, injective where a lemma says so.
- `AuditChains.AuditChain.Append`: assumes the stored records still carry a hash, where the code would raise an error on one that lost it; records are values, and the lock is one step.
- `ConcurrencyGate`, `RetryExecutor` and `Deadline` of the resilience module, and the operation run inside a circuit-breaker call, of which only the admission and the report are modelled.
- `RateLimits.ThroughputLimiter.Allow`: the clock is read before the lock is taken, so threads may record times out of order; the exact window holds as long as the recorded times do not go back.
- Stripping and changing case of levels, channels and targets: they are taken in their normal form, and white space is the ASCII one.
- Aliasing of records: the stores hold records as values and reassign them, where the code shares and updates objects.
- Delivery without a configured delivery function, persistence callbacks and the texts of delivery errors.
- `Idempotency.EverybodyGetsDone`: bounds runs in which no thread wakes for nothing; the owner's operation is one step, taken to end.
- `Idempotency.NobodyIsStuck`: the owner's operation is taken to end. One that never does, or that calls `execute` with its own key and so waits for itself, keeps every caller of the key waiting.
- `Reconciliations.EnqueueReconciliation`: a key is a function of location and generation, and the account belongs to the location.
- Concurrent calls of the case, decision, notification and synchronization services, which hold no lock: their calls are taken one at a time in one process, where the code may be served by several workers and threads, and two calls of `queue` at once may both miss the duplicate.
- `Reconciliations.LockedOutIffDeadOrCancelled`: assumes that keys tell locations and generations apart, and that jobs of other kinds use other keys; a cursor stored twice at one clock reading is not covered.
- `GoogleSync.SyncEngine.HandleEvent`: an event without a review identifier, which reconciles page one and resets the cursor, is not modelled; parsing of events, their deduplication and the HTTP clients are not either, and one organization is followed.
- API routing, authentication, roles other than approvers', analytics, billing, text extraction, configuration and the front end.
