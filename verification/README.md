# Window reset: a verified model

This project models the stateful core of the Codex window-reset plugin and proves what it promises over whole runs.
It is Dafny 4.11; `dafny verify dfyconfig.toml` checks everything.

## What is modelled

**Durable occurrence scheduler** (`RuntimeState`, `SchedulerState`, `Scheduler`, `TimerLoops`, `Reconciling`,
`ReconcileOutcomes`, `CallbackOutcomes`, `TimerOutcomes`, `SchedulerSafety`, `SchedulerMonotone`, `SchedulerOrder`,
`SchedulerProgress`, `SchedulerSharpness`). `Scheduler` is the object with its timers, generations, waiting verdicts
and store; each method is proved equal to a function on a value of type `Sched`. A run is a list of events: requests,
callbacks with any generation, stops, crashes, changes of the guardrail holds by the quota service. Every store write
ends `Ok`, `Lost` or `Ambiguous` (reported as failed but applied, which is what a failing directory sync after the
rename does); the planner may fail on any date and the zone may fail to load. A crash in the middle of a command is
the command with its remaining writes lost or ambiguous, followed by `Crashed`; a stop that arrives during a command
is the `Gate` of that command.

**Reset-credit protocol** (`ResetAudit`, `ResetProtocol`, `ResetRuntime`, `ResetSafety`, `ResetTheorems`, `ResetRace`,
`ResetFences`, `AuditRetention`, `ResetAnswers`). Any number of requests interleave; a program counter per request
names the atomic section it enters next. The repository works on its list of records and is proved to refine
operations on a map from keys to records. `ResetRuntime.Runtime` is the object with the flights and busy accounts; its
critical sections are proved to be single steps of the protocol. A crash while the upstream call is out is the step
`Spend` followed by `Crashes`, whether or not upstream acted on the call: the call counts as a consume and its answer
is lost.

**Strategy simulator** (`Intervals`, `Timeline`, `Simulator`, `SimulationOutcomes`, `NetGain`). Instants are integers
(nanoseconds since the year 1, so that Go's zero time is 0) and lengths are cardinalities of sets of instants.

**Configuration, planner and local time** (`Config`, `ConfigOutcomes`, `LocalTime`, `Planner`, `Plans`, `Slots`,
`Blackouts`, `DayPlans`, `PlanGrid`, `Sorting`). A zone is any function from minute instants to whole-minute offsets
within 18 hours; the rank digest is any function of the string.

**Quota cache and guardrail** (`Quota`, `QuotaRuns`, `QuotaDecisions`, `QuotaHolds`, `CacheClears`). `Quota.Service`
is the object with its methods and loops. In the runs, refreshes, evaluations (which read the cache, read the hold and
write it in separate sections), cache clears and restarts interleave, and every decision is logged with what it was
taken from.

**Bulk runs** (`BulkRuns`), with their loops and worker interleavings.

The modules named `…Outcomes`, `AuditRetention`, `ResetAnswers`, `QuotaHolds` and `PlanGrid` say what the step
functions of the others leave, in terms of stored fields, instants and answers, without using those functions.

## Where the code does less than one might read into it

- A terminal audit outcome is not final. A second caller that looked for a flight before the first one began it, and
  read the record while it was pending, later overwrites the durable success with Unknown
  (`ResetRace.TerminalOutcomeIsNotFinal`); `ResetTheorems.OutcomeChangesExactlyWhen` says that nothing else does.
- `AppendPending` takes a not-exist error of the retention rewrite for an empty history, so that one append can drop
  every other record. The model counts this as a removal of every key
  (`ResetAudit.AppendDropsLiveRecordsExactlyWhen`); the bound on consumes holds with it.
- A stored hold does not stop a fresh snapshot that has no long window (`QuotaRuns.HoldIsPassedWithoutLongWindows`);
  `QuotaRuns.PassedAndKeptExactlyWhen` says that it is passed and kept in no other case.
- A cleared cache does not stay cleared: it shows an old snapshot again exactly when a refresh that was in flight at the
  clear, and remembers one, fails (`CacheClears.ClearedReturnsExactlyWhen`).
- A timer does not imply a next run. `Reconciling.TimerWithoutNextRunExactlyWhen` gives the two exceptions; the claim
  guard refuses the first (`Reconciling.UnselectedKeepsItsTimer`), and the second only rewrites its verdict.
- On a fall-back day the second copy of a blacked-out minute can be chosen (`Slots.SecondCopyOfABlackoutCanBeChosen`),
  exactly when the clock falls back inside an allowed piece to a minute before it (`Blackouts.PlansAreOpenExactlyWhen`).
- The net gain of a schedule can be negative (`NetGain.NetGainCanBeNegative`). An anchor is safe for all work exactly
  when the budget lasts a whole window or the anchor is whole windows ahead (`NetGain.NeverLosesExactlyWhen`), and safe
  for work that fits into the first window (`NetGain.NetGainIsNotNegative`).
- That Succeeded, Skipped and Missed are absorbing needs all-or-nothing writes: a verdict that was written although its
  write was reported as failed is written again later, over whatever the occurrence has become meanwhile
  (`SchedulerSharpness.AmbiguousVerdictOverwritesMissed`), and nothing else changes a finished entry
  (`SchedulerSharpness.FinishedChangesExactlyWhen`). With no verdict waiting they are final under any writes
  (`SchedulerOrder.OverForever`), and at-most-once execution and the absence of catch-up need no such assumption.

## Model

| member | source | states |
|---|---|---|
| `SchedulerSafety.AtMostOnce` | internal/schedule/scheduler.go:645-789 | Over every run from an empty store (stale callbacks, lost and ambiguous writes, planner failures, stops, crashes, restarts) each occurrence is preheated at most once and compensated at most as often as it was preheated, and every compensation comes after a preheat of that occurrence that ended Failed |
| `SchedulerSafety.StepKeepsSafe` | internal/schedule/scheduler.go:276-319 | Every command and lifecycle step keeps the safety invariant: call counts, the debts that justify a compensation, and the verdicts waiting to be written agree with the history of executor calls |
| `SchedulerSafety.ReconcileIsQuiet` | internal/schedule/scheduler.go:379-453 | A reconcile transaction makes nothing executable again that has left the planned state, and creates no compensation debt |
| `SchedulerSafety.PreheatKeepsSafe` | internal/app/preheat.go:137-146 | The executor call and its own durable write of the due time keep the safety invariant, whether that write is applied, lost or ambiguous |
| `SchedulerSafety.SettleKeepsSafe` | internal/schedule/scheduler.go:602-631 | Writing a verdict keeps the safety invariant, whichever way the write ends |
| `SchedulerSafety.RunIsSafe` | internal/schedule/scheduler.go:144-186 | The safety invariant holds after every run |
| `SchedulerMonotone.PreheatsExactlyWhen` | internal/schedule/scheduler.go:645-687 | The executor is called for a preheat if and only if the callback owns its timer, no verdict waits, the occurrence is durably planned, due, owned by its next run and selected, the claim was written and the stop gate was still open |
| `SchedulerMonotone.CompensatesExactlyWhen` | internal/schedule/scheduler.go:701-775 | The same equivalence for a compensation: owed durably at its next run, selected, eligible, account not held, attempt written as spent before the call |
| `SchedulerMonotone.PreheatsAreDueAndSelected` | internal/schedule/scheduler.go:660-674 | A preheat is never early, never for an account that is not selected, never while disabled, and only for the occurrence whose next run stands at its planned instant |
| `SchedulerMonotone.PlannedIsNeverReentered` | internal/schedule/scheduler.go:393-425 | Once an occurrence has left Planned it is never Planned again, over every continuation |
| `SchedulerMonotone.SupersededStaysSuperseded` | internal/schedule/scheduler.go:520-558 | A callback whose timer was stopped or replaced never owns that timer again in the life of its process |
| `CallbackOutcomes.PreheatIsRecorded` | internal/schedule/scheduler.go:645-699 | In every reachable state, after a preheat whose verdict is written the logged call and the durable status tell the answer: Succeeded iff the request succeeded, Skipped iff requests are disabled or the executor refused without being busy, Failed otherwise, or Missed iff that failure is owed a compensation which the following reconciliation gives up |
| `CallbackOutcomes.SecondAttemptIsRecorded` | internal/schedule/scheduler.go:701-789 | The same for a second attempt, which is always spent and never given up |
| `CallbackOutcomes.RewrittenVerdictIsRecorded` | internal/schedule/scheduler.go:602-657 | The same for a verdict that waited: a callback that writes it onto the disk makes no call and records what the executor answered |
| `CallbackOutcomes.WaitingVerdictsRepeatAnswers` | internal/schedule/scheduler.go:602-631 | Over every run, ambiguous writes included, a verdict that waits is the status of a logged call of that kind for that occurrence |
| `CallbackOutcomes.OccurrenceCallbackLeaves` | internal/schedule/scheduler.go:645-699 | In every reachable state the whole durable state, the calls, the waiting verdicts and the phase after an occurrence callback, told from the stored fields, the answer and how each write and the stop gate end |
| `CallbackOutcomes.CompensationCallbackLeaves` | internal/schedule/scheduler.go:701-789 | The same for a compensation callback; an attempt that is not eligible or on hold is spent and skipped |
| `CallbackOutcomes.OtherStepLeaves` | internal/schedule/scheduler.go:276-319 | The same for every other event: starts, requests, the midnight and the retry timer, stops, crashes and changed holds |
| `CallbackOutcomes.PreheatIsCalledExactlyWhen` | internal/schedule/scheduler.go:645-687 | The exact condition of a preheat call in terms of the stored status, instants, next run and account, the configuration, the timer generation, the claim and the gate |
| `CallbackOutcomes.SecondAttemptIsMadeExactlyWhen` | internal/schedule/scheduler.go:701-775 | The exact condition of a compensation call in the same terms, including eligibility and the stored hold of the trimmed account |
| `CallbackOutcomes.AnswerIsStatus` | internal/app/preheat.go:311-329 | The status of every answer, and the due time five minutes after exactly the answers that earn a second attempt: no network, no answer in time, too many requests, a 429 or a 5xx |
| `SchedulerOrder.OverForever` | internal/schedule/scheduler.go:645-789 | An occurrence neither planned, running nor owing, with no verdict waiting, keeps its entry and gets no further call over every continuation, ambiguous writes and crashes included |
| `SchedulerOrder.NoCatchUp` | internal/schedule/scheduler.go:144-186 | Whatever a process knew durably when it died is never executed by any later process, whether later recoveries succeed or not |
| `SchedulerOrder.InertStep` | internal/schedule/scheduler.go:165-183 | A process without a successful recovery makes no call, and a successful recovery leaves nothing planned, running or owing that it found |
| `SchedulerProgress.FinishedIsFinal` | internal/schedule/scheduler.go:602-631 | With all-or-nothing writes so far, Succeeded, Skipped and Missed are absorbing: the whole entry is frozen for every continuation |
| `SchedulerSharpness.AmbiguousVerdictOverwritesMissed` | internal/schedule/scheduler.go:602-631 | The assumption is needed: a concrete run in which a verdict whose write was applied but reported as failed later turns a Missed occurrence into Failed |
| `SchedulerSharpness.FinishedChangesExactlyWhen` | internal/schedule/scheduler.go:602-631 | In every reachable state, whatever writes were lost or ambiguous, a step changes a Succeeded, Skipped or Missed entry if and only if a callback that owns its timer rewrites a waiting verdict of that occurrence, the write reaches the disk and the verdict differs from the entry; then that verdict is what is there |
| `SchedulerProgress.DebtsAreEarned` | internal/app/preheat.go:287-309 | With all-or-nothing writes a set due time implies Running or Failed, an unspent attempt and exactly one preheat, and an owed compensation implies a failed preheat and no compensation so far |
| `SchedulerProgress.NoVerdictIsStranded` | internal/schedule/scheduler.go:476-494 | With all-or-nothing writes every saved verdict of a live process belongs to a durably Running occurrence, has its own retry timer armed, and repeats what the executor answered |
| `SchedulerProgress.RetryOnlyRewrites` | internal/schedule/scheduler.go:650-657 | Handling the retry timer of an occurrence verdict never calls the executor and gives the verdict up exactly when its write succeeds; otherwise its timer is armed again |
| `SchedulerProgress.CompensationRetryOnlyRewrites` | internal/schedule/scheduler.go:707-714 | The same for the verdict of a compensation |
| `SchedulerProgress.HorizonNeverRunsDry` | internal/schedule/scheduler.go:299-311 | After one successful reconciliation a live scheduler always has the midnight or the reconcile-retry timer armed whatever fails, and the midnight timer itself as long as the zone loads when midnight is rescheduled |
| `SchedulerProgress.MidnightKeepsHorizon` | internal/schedule/scheduler.go:299-311 | The midnight callback loses the midnight timer exactly when its reconciliation fails and the zone does not load when midnight is rescheduled |
| `SchedulerProgress.RunIsOrderly` | internal/schedule/scheduler.go:276-319 | The invariant behind these promises holds after every run with all-or-nothing writes |
| `Reconciling.ReconcileByLine` | internal/schedule/scheduler.go:378-453 | Refinement: the transaction over the whole state is, occurrence by occurrence, applying the plans of that occurrence in order and then dropping what is no longer selected |
| `Reconciling.NextRunsAreExactlyDue` | internal/schedule/scheduler.go:378-453 | After a reconciliation NextRuns is exactly the selected occurrences that may run: Planned at PlannedAt, which lies ahead, and owing ones at their due time |
| `Reconciling.HistoryIsUntouched` | internal/schedule/scheduler.go:430-443 | Running, Succeeded, Skipped, Missed and spent Failed entries are not changed; a debt is given up exactly when it is no longer selected |
| `Reconciling.UnselectedLosesItsRun` | internal/schedule/scheduler.go:427-443 | An occurrence the horizon does not name keeps its entry unless it owed a compensation, and has no next run |
| `ReconcileOutcomes.ReconcileIsReconciled` | internal/schedule/scheduler.go:378-453 | What the enabled transaction makes of every occurrence, told from the fields: one that was absent or planned and is named by plans is planned by the last of them, with its trimmed payload, iff all of them lie ahead, and otherwise missed with the reason of the first that does not; history stays, unselected debts are given up, and next runs are exactly those of named planned and owing occurrences |
| `ReconcileOutcomes.HorizonIsHorizon` | internal/schedule/scheduler.go:368-376 | The plans of the horizon are those of every date in their own order, date after date; one failing date fails them all |
| `ReconcileOutcomes.ReconcileLeaves` | internal/schedule/scheduler.go:336-459 | The durable effect of any reconciliation, enabled or disabled, lost or failing, and exactly when it succeeds; it neither calls the executor nor touches a waiting verdict |
| `ReconcileOutcomes.ReconciledHistory` | internal/schedule/scheduler.go:427-443 | Of what is no longer planned a reconciliation changes only debts it gives up, as missed with the reason |
| `ReconcileOutcomes.StartLeaves` | internal/schedule/scheduler.go:149-186 | A process starts once: planned, running and owing occurrences are missed as of a restart, next runs and holds stay, and an unconfirmed write is remembered |
| `TimerOutcomes.EnabledTimers` | internal/schedule/scheduler.go:461-518 | After a successful enabled reconciliation the timers of every occurrence are those its entry asks for, the midnight timer stands at the next midnight, and a timer has a new generation iff it changed |
| `TimerOutcomes.DisabledTimers` | internal/schedule/scheduler.go:341-358 | After a disabled one only the timers of waiting verdicts and the midnight timer stand |
| `TimerOutcomes.FailedReconcileKeepsTimers` | internal/schedule/scheduler.go:336-459 | Every other reconciliation leaves all timers alone |
| `TimerOutcomes.FailureArmsRetry` | internal/schedule/scheduler.go:574-643 | A callback whose reconciliation fails arms a retry a second later unless one lies ahead or it is stopping; one whose reconciliation succeeds arms none |
| `TimerOutcomes.RefusedClaimRetries` | internal/schedule/scheduler.go:675-679 | A claim that is not confirmed is tried again a second later under the next generation, and no other timer changes |
| `TimerOutcomes.RefusedSecondClaimRetries` | internal/schedule/scheduler.go:716-762 | So is a compensation whose state cannot be read or whose claim is not confirmed |
| `TimerOutcomes.RefusedVerdictRetries` | internal/schedule/scheduler.go:650-657 | A verdict that is not confirmed waits a second more on its own timer |
| `TimerOutcomes.RefusedSecondVerdictRetries` | internal/schedule/scheduler.go:707-714 | The same for the verdict of a compensation |
| `TimerOutcomes.IdleCallbackConsumes` | internal/schedule/scheduler.go:680-687 | A callback with nothing to do takes its own timer away and no other |
| `Reconciling.EveryNextRunIsArmed` | internal/schedule/scheduler.go:461-518 | After a successful enabled reconciliation every next run has its timer armed at that very instant |
| `Reconciling.RearmedTimersAreWanted` | internal/schedule/scheduler.go:461-518 | Rearming brings every timer to exactly its wanted instant or stops it, and changes a generation exactly when it changes the timer |
| `Reconciling.ReconcileIsIdempotent` | internal/schedule/scheduler.go:378-453 | The transaction applied twice at one instant equals the transaction applied once, for every list of plans |
| `Reconciling.ReconcilingAgainChangesNothing` | internal/schedule/scheduler.go:336-459 | Reconciling again in the same circumstances changes neither the durable state nor any timer or generation, enabled or disabled |
| `Reconciling.TimerWithoutNextRunExactlyWhen` | internal/schedule/scheduler.go:461-475 | A timer does not imply a next run: after a successful enabled reconciliation an occurrence timer stands without one if and only if the occurrence is planned ahead and no longer selected, or is running with a verdict that waits to be written |
| `Reconciling.UnselectedKeepsItsTimer` | internal/schedule/scheduler.go:461-475 | An unselected planned occurrence keeps its timer and is refused by the claim guard whenever it fires |
| `Scheduler.Scheduler.ReplaceTimer` | internal/schedule/scheduler.go:520-537 | Arms a timer at an instant with the next generation; proved equal to the step function the run theorems are about |
| `Scheduler.Scheduler.ConsumeTimer` | internal/schedule/scheduler.go:548-558 | Owns the timer only for the current generation, and then stops it; proved equal to the step function the run theorems are about |
| `Scheduler.Scheduler.RetryLater` | internal/schedule/scheduler.go:560-572 | Arms a retry one second later unless stopping; proved equal to the step function the run theorems are about |
| `Scheduler.Scheduler.ScheduleReconcileRetry` | internal/schedule/scheduler.go:574-585 | Arms the reconcile retry unless stopping or one is already ahead; proved equal to the step function the run theorems are about |
| `Scheduler.Scheduler.ScheduleMidnight` | internal/schedule/scheduler.go:791-807 | Arms the midnight timer unless it already stands there; fails without a zone; proved equal to the step function the run theorems are about |
| `Scheduler.Scheduler.CancelTimers` | internal/schedule/scheduler.go:815-822 | The loop stops every occurrence timer except those of waiting verdicts; proved equal to the step function the run theorems are about |
| `Scheduler.Scheduler.StopAllTimers` | internal/schedule/scheduler.go:809-813 | The loop stops every timer; proved equal to the step function the run theorems are about |
| `Scheduler.Scheduler.VisitOccurrence` | internal/schedule/scheduler.go:463-508 | One visit arms exactly the timer the occurrence wants and records it as active; proved equal to the step function the run theorems are about |
| `Scheduler.Scheduler.ReconcileTimers` | internal/schedule/scheduler.go:461-518 | The two loops end at the wanted timers, in whatever order the map is visited; proved equal to the step function the run theorems are about |
| `Scheduler.Scheduler.StartUp` | internal/schedule/scheduler.go:149-186 | Starts once; recovers the durable state, or remembers the failure; proved equal to the step function the run theorems are about |
| `Scheduler.Scheduler.ShutDown` | internal/schedule/scheduler.go:189-223 | Stops all timers and refuses everything afterwards; proved equal to the step function the run theorems are about |
| `Scheduler.Scheduler.PlanHorizon` | internal/schedule/scheduler.go:368-376 | Collects today and the next seven dates, or fails with the first date that fails; proved equal to the step function the run theorems are about |
| `Scheduler.Scheduler.UpdatePlans` | internal/schedule/scheduler.go:379-453 | The reconcile transaction, written all at once; proved equal to the step function the run theorems are about |
| `Scheduler.Scheduler.ReconcileNow` | internal/schedule/scheduler.go:336-459 | The whole reconciliation, enabled or disabled, with every failure point; proved equal to the step function the run theorems are about |
| `Scheduler.Scheduler.ReconcileAfterCallback` | internal/schedule/scheduler.go:633-643 | Reconciles with the latest configuration and arms a retry on failure; proved equal to the step function the run theorems are about |
| `Scheduler.Scheduler.DisableAndCancel` | internal/schedule/scheduler.go:341-358 | Disables durably and only then cancels the occurrence timers; proved equal to the step function the run theorems are about |
| `Scheduler.Scheduler.PlanAndRearm` | internal/schedule/scheduler.go:363-458 | Plans the horizon, writes it and only then rearms the timers; proved equal to the step function the run theorems are about |
| `Scheduler.Scheduler.SettleVerdict` | internal/schedule/scheduler.go:688-696 | Writes a verdict, or keeps it with an armed retry; proved equal to the step function the run theorems are about |
| `Scheduler.Scheduler.RewriteVerdict` | internal/schedule/scheduler.go:650-657 | Writes a waiting verdict again; proved equal to the step function the run theorems are about |
| `Scheduler.Scheduler.ClaimOccurrence` | internal/schedule/scheduler.go:658-687 | Checks the guard inside one write, and runs only what that write claimed; proved equal to the step function the run theorems are about |
| `Scheduler.Scheduler.RunOccurrence` | internal/schedule/scheduler.go:682-698 | Passes the gate, executes, settles, reconciles; proved equal to the step function the run theorems are about |
| `Scheduler.Scheduler.ClaimSecondAttempt` | internal/schedule/scheduler.go:715-766 | Loads, checks, asks for eligibility and spends the attempt durably before anything is sent; proved equal to the step function the run theorems are about |
| `Scheduler.Scheduler.RunSecondAttempt` | internal/schedule/scheduler.go:767-788 | Passes the gate, executes, settles, reconciles; proved equal to the step function the run theorems are about |
| `Scheduler.Scheduler.OnReconcile` | internal/schedule/scheduler.go:229-258 | Starts lazily; refuses after a failed recovery or a stop; proved equal to the step function the run theorems are about |
| `Scheduler.Scheduler.OnRetry` | internal/schedule/scheduler.go:292-298 | The reconcile-retry callback; proved equal to the step function the run theorems are about |
| `Scheduler.Scheduler.OnMidnight` | internal/schedule/scheduler.go:299-311 | The midnight callback; proved equal to the step function the run theorems are about |
| `Scheduler.Scheduler.SaveVerdict` | internal/schedule/scheduler.go:602-631 | The verdict transaction for both kinds; proved equal to the step function the run theorems are about |
| `Scheduler.Scheduler.OnOccurrence` | internal/schedule/scheduler.go:645-699 | The occurrence callback: rewrite a waiting verdict, or claim, execute, settle, reconcile; proved equal to the step function the run theorems are about |
| `Scheduler.Scheduler.OnCompensation` | internal/schedule/scheduler.go:701-789 | The compensation callback: rewrite, or load, check, claim, execute, settle, reconcile; proved equal to the step function the run theorems are about |
| `Scheduler.ScheduledForConfig` | internal/schedule/scheduler.go:861-869 | The loop finds an account exactly when some scheduled key equals it after trimming |
| `Scheduler.Scheduler.WriteDue` | internal/app/preheat.go:287-309 | The executor's own transaction on the due time, proved equal to the function the run theorems are about |
| `Scheduler.Repository.Save` | internal/store/runtime_state.go:81-95 | One read-modify-write that is applied, lost, or applied although reported as failed |
| `TimerLoops.VisitOne` | internal/schedule/scheduler.go:463-508 | Visiting one more occurrence extends the part of the timers that stands where it should |
| `TimerLoops.PrunedAll` | internal/schedule/scheduler.go:509-517 | Stopping what no occurrence wants ends exactly at the rearmed state |
| `RuntimeState.RecoverAll` | internal/schedule/scheduler.go:165-176 | The recovery loop marks exactly the planned, running and owing entries missed |
| `RuntimeState.DisableAll` | internal/schedule/scheduler.go:342-354 | The disabling loops drop every next run and give up what is owed |
| `RuntimeState.ApplyOne` | internal/schedule/scheduler.go:383-425 | One plan refreshes a planned entry, keeps a debt due, or creates an entry |
| `RuntimeState.ApplyAll` | internal/schedule/scheduler.go:381-425 | The plan loop equals applying the plans in order, and collects the desired identities |
| `RuntimeState.DropAll` | internal/schedule/scheduler.go:430-443 | Unselected planned entries lose their next run and unselected debts are given up |
| `RuntimeState.PruneAll` | internal/schedule/scheduler.go:444-450 | Next runs survive only for entries that may run |
| `RuntimeState.OnlyFailuresAreCompensable` | internal/app/preheat.go:311-325 | Every result that earns a compensation is a result the scheduler records as Failed |
| `ResetTheorems.OneConsumePerRemoval` | internal/app/reset.go:28-145 | consumes(key) <= 1 + removals(key) over every interleaving of callers, cancellations, failed or ambiguous audit writes, recoveries and crashes |
| `ResetTheorems.EvidenceIsDurableAndTrue` | internal/app/reset.go:105-155 | While no record of the key was removed, its consume is the only one, has a durable record of the same account, and a durable success or failure is the answer to that very consume, even when orphan recovery races the flight |
| `ResetTheorems.OutcomesAreWitnessed` | internal/app/reset.go:223-241 | Without removals no durable outcome and no answer to any caller (owner, waiter, later caller) claims a success or failure the upstream did not give |
| `ResetTheorems.AccountNeverChanges` | internal/store/reset_audit.go:122-137 | A record keeps its account for as long as it is not removed |
| `ResetTheorems.OutcomeChangesExactlyWhen` | internal/app/reset.go:278-287 | A durable success or failure whose record is kept changes in a step if and only if an orphan recovery of that key reaches the disk, and then to Unknown |
| `AuditRetention.LoadKeepsExactlyWhen` | internal/store/reset_audit.go:41-79 | After a load a record is on the disk iff it was there and retention is not positive, it has no request time, it was requested within the retention, the file could not be read, or the rewrite was lost |
| `AuditRetention.FindAnswers` | internal/store/reset_audit.go:87-100 | A key is found iff it has a record within the retention, and only if the load succeeds |
| `AuditRetention.AppendLeaves` | internal/store/reset_audit.go:102-120 | The file and the verdict of an append for every way its load and write end |
| `AuditRetention.ReplaceLeaves` | internal/store/reset_audit.go:122-137 | The file and the verdict of a replacement |
| `AuditRetention.DeleteLeaves` | internal/store/reset_audit.go:139-159 | A deletion drops exactly the records requested before its cutoff, and succeeds if there is none |
| `AuditRetention.RecoverLeaves` | internal/store/reset_audit.go:161-182 | A recovery makes exactly the pending outcomes unknown, as of now |
| `AuditRetention.RemovalsHaveACause` | internal/store/reset_audit.go:41-192 | Over every step a record is removed, and counted as removed, only by a clear, by an append after a not-exist error, or because its non-zero request time lies before a cutoff of that step |
| `AuditRetention.ConsumedOnceWithinRetention` | internal/app/reset.go:105-155 | Within one retention period, without clears and not-exist errors, the credit of a key is consumed at most once over every interleaving, restart and failing write |
| `ResetAnswers.RequestGoes` | internal/app/reset.go:28-145 | Where every step of a request leads and what it tells the caller: a finished record of the account is the answer, a pending one without a flight is an orphan, another account or an unreadable file is refused, and nothing goes on without an account and credits |
| `ResetAnswers.RequestWrites` | internal/app/reset.go:28-145 | What every step of a request leaves in the audit file |
| `ResetAnswers.RequestFlies` | internal/app/reset.go:164-221 | Only beginning and finishing touch the flights and busy accounts, and only the gate consumes |
| `ResetAnswers.GateConsumes` | internal/app/reset.go:147-155 | The upstream call consumes once for the key and account of the request and records what the answer means: success iff a 2xx without an error, unknown iff no answer or a deadline, failure otherwise |
| `ResetAnswers.CreditsAreCheckedFirst` | internal/app/reset.go:68-135 | Over every run a credit is consumed only in the gate step of a request that has passed its account check, taken when no record was found, and its credit check |
| `ResetAnswers.OtherStepsWrite` | internal/store/reset_audit.go:41-192 | Outside requests only the listing, clearing, deleting and recovering of the audit touch the file, each as told from request times and outcomes, and nothing consumes |
| `ResetAnswers.LifecycleLeaves` | internal/app/runtime.go:276-352 | What probes, stops and crashes leave: accounts are taken and given back, the gate is passed when nobody is inside, the stop returns when no flight is left |
| `ResetRace.TerminalOutcomeIsNotFinal` | internal/app/reset.go:46-68 | A concrete run of two callers in which a durable success, about to be reported, is overwritten with Unknown without any removal |
| `ResetFences.BusyIsExactlyWhoWorks` | internal/app/runtime.go:324-352 | The busy accounts are exactly the disjoint union of accounts with a live flight and with a live probe, and no account has two flights |
| `ResetFences.TheSpenderIsAlone` | internal/app/reset.go:164-195 | Whoever is inside the consume gate is the only owner of its key and of its account |
| `ResetFences.NothingAfterStop` | internal/app/runtime.go:276-309 | Once Stop has passed the gate nothing is consumed any more, and once it has returned no flight is live, whatever requests still run or arrive |
| `ResetFences.RunIsFenced` | internal/app/reset.go:243-254 | The stop fence holds in every reachable state |
| `ResetSafety.NextKeeps` | internal/app/reset.go:28-145 | Every atomic section of every caller, every audit operation, probe, stop and crash keeps the protocol invariant |
| `ResetSafety.RunKeeps` | internal/app/reset.go:28-145 | The protocol invariant holds after every run |
| `ResetSafety.SpendKeeps` | internal/app/reset.go:120-133 | The upstream call keeps the invariant: it uses up the room its durable record made |
| `ResetSafety.AppendingKeeps` | internal/app/reset.go:105-118 | The write-ahead append keeps the invariant in all three outcomes |
| `ResetSafety.RecoverOrphanKeeps` | internal/app/reset.go:278-287 | Orphan recovery keeps the invariant even beside the live flight |
| `ResetSafety.BeginKeeps` | internal/app/reset.go:164-195 | Beginning a flight keeps flights, accounts and busy marks in step |
| `ResetSafety.FinishKeeps` | internal/app/reset.go:197-221 | Finishing a flight releases exactly its own account and leaves a true answer for those who wait |
| `ResetRuntime.Runtime.AcquireBusy` | internal/app/runtime.go:324-336 | Marks an account busy unless stopped or already busy; one protocol step |
| `ResetRuntime.Runtime.ReleaseBusy` | internal/app/runtime.go:348-352 | Releases a probe's account; one protocol step |
| `ResetRuntime.Runtime.BeginResetFlight` | internal/app/reset.go:164-195 | Joins, refuses or begins a flight; one protocol step |
| `ResetRuntime.Runtime.FinishResetFlight` | internal/app/reset.go:197-221 | Lands the flight; one protocol step |
| `ResetRuntime.Runtime.ResetConsume` | internal/app/reset.go:243-254 | Enters the upstream call exactly when neither stopped nor cancelled |
| `ResetRuntime.Runtime.HandlePendingAppendConflict` | internal/app/reset.go:256-276 | Answers from the record found, or refuses |
| `ResetRuntime.Runtime.RecoverOrphanedReset` | internal/app/reset.go:278-287 | Writes Unknown over the record it read |
| `ResetRuntime.Runtime.WaitResetFlight` | internal/app/reset.go:223-241 | A waiter that wakes up: refused if cancelled, otherwise the durable record or what the flight left; one or two protocol steps |
| `ResetRuntime.Runtime.FindRecord` | internal/app/reset.go:53-69 | Answers, recovers or goes on, by the durable record |
| `ResetRuntime.Runtime.LookForFlight` | internal/app/reset.go:46-51 | Joins a live flight of the key or goes on; one protocol step |
| `ResetRuntime.Runtime.AppendRecord` | internal/app/reset.go:105-118 | Writes the pending record ahead of the call; one protocol step |
| `ResetRuntime.Runtime.ReplaceAuditRecord` | internal/app/reset.go:130-144 | Writes the final record and derives the answer; one protocol step |
| `ResetRuntime.Runtime.SpendAndRecord` | internal/app/reset.go:120-144 | From the committed record to the answer, a run of the caller's own steps |
| `ResetRuntime.Runtime.Prepare` | internal/app/reset.go:53-81 | The sections before a flight, a run of the caller's own steps |
| `ResetRuntime.Runtime.Fly` | internal/app/reset.go:83-144 | The sections of a flight, a run of the caller's own steps |
| `ResetRuntime.Runtime.RunFlight` | internal/app/reset.go:97-144 | From the quota refresh to the final answer, a run of the caller's own protocol steps |
| `ResetRuntime.Runtime.ResetQuota` | internal/app/reset.go:28-145 | A whole request is exactly a run of one thread of the protocol: it ends with an answer or waits for the live flight of its key |
| `ResetAudit.Repository.Load` | internal/store/reset_audit.go:41-79 | Loads and applies retention, keeping records without a request time; equals the operation on the book |
| `ResetAudit.Repository.FindByKey` | internal/store/reset_audit.go:87-100 | Finds the record of a key, or reports that the file is unreadable |
| `ResetAudit.Repository.AppendPending` | internal/store/reset_audit.go:102-120 | Appends exactly when the key is new; otherwise a conflict; an append after a not-exist error starts from nothing |
| `ResetAudit.Repository.ReplaceRecord` | internal/store/reset_audit.go:122-137 | Replaces the record of the key in place, or fails if there is none |
| `ResetAudit.Repository.DeleteBefore` | internal/store/reset_audit.go:139-159 | Drops exactly the records requested before the cutoff |
| `ResetAudit.Repository.RecoverPending` | internal/store/reset_audit.go:161-182 | Turns exactly the pending records into Unknown |
| `ResetAudit.Repository.ClearAll` | internal/store/reset_audit.go:184-188 | Drops everything |
| `ResetAudit.DropOld` | internal/store/reset_audit.go:59-74 | The retention loop keeps exactly the records that are not expired, in order |
| `ResetAudit.LoadingRefines` | internal/store/reset_audit.go:41-79 | Refinement: loading the list of records is loading the book it stands for, and keeps keys unique |
| `ResetAudit.AppendDropsLiveRecordsExactlyWhen` | internal/store/reset_audit.go:102-120 | An append drops a record that retention keeps if and only if the retention rewrite failed with a not-exist error and the append reaches the disk; then only the new record is left |
| `QuotaRuns.OnlyRecoveryLifts` | internal/quota/service.go:357-403 | In every reachable state a step that removes a hold is the write of an evaluation that saw a fresh, error-free snapshot with at least one long window and all of them above the floor |
| `QuotaRuns.HoldPersists` | internal/quota/service.go:270-279 | A hold survives, unchanged, every run without such an evaluation: refreshes, failures, cache clears, restarts, floor changes |
| `QuotaHolds.HoldsChangeExactlyWhen` | internal/quota/service.go:357-403 | In every reachable state and for every step, a hold is there afterwards iff it was and no recovery is written for its account, or a fresh, error-free low view is; a new one bears the instant and floor of that evaluation, an old one those it had |
| `QuotaHolds.GoesOnExactlyWhen` | internal/quota/service.go:341-403 | An evaluation goes on to write iff the store can be read and its view is low without a hold, or recovered with one |
| `QuotaHolds.LowViewStoresAHold` | internal/quota/service.go:357-403 | Over runs, an evaluation that saw a low view and no hold leaves a hold whatever happens in between, unless its write is lost or the process restarts |
| `QuotaHolds.StoredHoldDecides` | internal/quota/service.go:318-420 | Over runs, until a recovery is written, a stored hold makes every decision on an absent, stale, failed or low view a hold |
| `QuotaHolds.BeginningSees` | internal/quota/service.go:318-330 | An evaluation that begins has seen what is cached for its account, or that nothing is |
| `QuotaHolds.WritingDecides` | internal/quota/service.go:330-339 | An evaluation that writes has decided, whichever way its write ends |
| `QuotaHolds.SharingSteps` | internal/quota/service.go:78-135 | Who asks while a refresh is in flight joins it and is served what it brings; a cleared cache keeps the refreshes in flight, and a restart keeps nothing but the holds |
| `QuotaHolds.LongWindowsAreTheOthers` | internal/quota/service.go:422-484 | With one window marked short, low means that one of the others is at or below the floor |
| `QuotaHolds.LongWindowsAreNotTheShortest` | internal/quota/service.go:422-484 | Without a mark, low means that a window other than the first shortest is at or below the floor |
| `QuotaHolds.ShortWindowSuffices` | internal/quota/service.go:405-420 | The shortest window suffices by its own quota and the minutes left to its reset |
| `CacheClears.StartRemembers` | internal/quota/service.go:78-100 | A refresh that starts remembers what is cached and when it started |
| `CacheClears.EndCaches` | internal/quota/service.go:101-126 | A refresh that ends caches what it brought, or what it remembered, marked as failed, and gives everyone who shared it the same |
| `CacheClears.ViewShowsTheCache` | internal/quota/service.go:242-268 | A view is the cached snapshot, stale iff it was captured at least five minutes ago |
| `QuotaDecisions.DecisionsInRuns` | internal/quota/service.go:318-420 | Over every interleaving of refreshes, cache clears, restarts and other evaluations, each decision is taken from what the cache showed at one time and whether a hold was stored at a later one: stored and absent, stale, failed or low decides hold; sufficient-window is decided if and only if the view is fresh, error-free, not low and has room in its shortest window (a due removal being written); fail-open if and only if the store is readable, no hold is stored and the view is absent or failed |
| `QuotaDecisions.HoldIsPassedExactlyWhen` | internal/quota/service.go:341-420 | Over the same runs, with a hold stored when it was read, the decision differs from hold if and only if the store is readable and the view fresh, error-free and not low, and a due removal is written |
| `QuotaRuns.LowAndRecoveredAreComplements` | internal/quota/service.go:365-402 | On a fresh snapshot with long windows exactly one of establishing and removing a hold is possible |
| `QuotaRuns.HoldIsPassedWithoutLongWindows` | internal/quota/service.go:405-420 | A concrete fresh snapshot with one window that passes a stored hold as sufficient while the hold stays |
| `QuotaRuns.PassedAndKeptExactlyWhen` | internal/quota/service.go:357-420 | A stored hold is passed and kept if and only if the fresh, error-free snapshot has no long window |
| `QuotaRuns.RefreshesAreShared` | internal/quota/service.go:78-135 | At most one refresh per account is in flight, and everyone who shared a flight is served the same result |
| `CacheClears.ClearedReturnsExactlyWhen` | internal/quota/service.go:101-119 | Over every run, a snapshot cached before the cache was cleared is cached again afterwards if and only if a refresh of its account that was in flight at the clear remembers one and that very refresh ends failed |
| `CacheClears.ClearedStaysCleared` | internal/quota/service.go:272-279 | Without such a refresh the clear is final: every snapshot cached afterwards was made by a refresh that ended after the clear |
| `CacheClears.RunIsTraced` | internal/quota/service.go:101-126 | Every cached or remembered snapshot is what one earlier refresh of that account brought, or the placeholder of a failed one |
| `CacheClears.FailureRestores` | internal/quota/service.go:110-119 | A failed refresh caches again exactly the snapshot it remembered, marked as failed at the time of its attempt |
| `QuotaRuns.FreshMeansRecent` | internal/quota/service.go:241-268 | An error-free view comes from the last attempt and is stale exactly from five minutes after it |
| `Quota.ShortestIndex` | internal/quota/service.go:461-484 | The first shortest of the windows marked short, or of all if none is marked |
| `Quota.AnyLongAtOrBelow` | internal/quota/service.go:422-433 | True exactly if some window other than the shortest is at or below the floor |
| `Quota.AllLongAbove` | internal/quota/service.go:435-446 | True exactly if there is a long window and none is low |
| `Quota.Choose` | internal/quota/service.go:357-403 | The transition of the hold for a view |
| `Quota.MakeDecision` | internal/quota/service.go:405-420 | The decision for a view and a hold |
| `Quota.Service.Begin` | internal/quota/service.go:78-105 | Joins the refresh in flight or becomes its owner, remembering the cached snapshot |
| `Quota.Service.End` | internal/quota/service.go:107-134 | Stores the result or restores the remembered snapshot, and lands the flight |
| `Quota.Service.Get` | internal/quota/service.go:242-268 | The cached view with its staleness; a zero capture time is never stale |
| `Quota.Service.Evaluate` | internal/quota/service.go:318-339 | Decision and hold transition together, with every store failure deciding hold |
| `BulkRuns.WorkIsConserved` | internal/app/manual.go:250-313 | Under any schedule and cancellation point there are three workers, or one per job if there are fewer, jobs start in request order and at most once, none is counted twice, and a finished run has completed every requested job exactly once |
| `BulkRuns.CancellationStartsNothing` | internal/app/manual.go:250-313 | A cancellation while jobs are left takes effect at once: whatever happens afterwards, no further job is started |
| `BulkRuns.UncancelledStartsEverything` | internal/app/manual.go:250-313 | Without a cancellation a finished run has started every job, in request order |
| `BulkRuns.RunsAlwaysFinish` | internal/app/manual.go:274-292 | Until a run is finished some step other than a cancellation is enabled, and every step brings the end nearer |
| `BulkRuns.RunManual` | internal/app/manual.go:250-313 | The counter of a manual run: when the run has finished it equals the total under every schedule and cancellation point, and no job was executed twice |
| `BulkRuns.RefreshQuotas` | internal/app/manual.go:129-187 | The slots filled in place: under any schedule each settled job has exactly its own result, and a finished refresh has a result in every slot in request order |
| `BulkRuns.RequestedKeys` | internal/app/manual.go:104-122 | Accepts exactly the non-empty lists of non-blank keys that differ after trimming, and returns them trimmed |
| `BulkRuns.RunKeeps` | internal/app/manual.go:250-293 | Every job is not reached yet, in exactly one worker's hands, or settled once |
| `Simulator.Run` | internal/simulate/service.go:13-103 | Work minutes, coverage, idle time, both timelines and the net gain of a simulated day are the measures of the sets of instants they stand for; invalid settings are refused in order |
| `SimulationOutcomes.SimulationTells` | internal/simulate/service.go:40-103 | On a day with work every simulation reports, in whole minutes rounded down, the work, the coverage and idle time of both anchors, the earliest planned instant, the net gain, and timelines whose every instant is told by the work, its usage window and the budget |
| `SimulationOutcomes.FreeDayTells` | internal/simulate/service.go:40-103 | A day without work reports nothing but idle time |
| `SimulationOutcomes.AvailableIsMeant` | internal/simulate/service.go:105-131 | An instant is made available iff it is work and its usage window, a whole number of windows after the anchor, holds less work before it than the budget |
| `Simulator.Strategy` | internal/simulate/service.go:78-98 | Coverage, idle time and timeline of one strategy agree with the budgeted work of its cycles |
| `Simulator.CycleAvailability` | internal/simulate/service.go:109-131 | Terminates; the available pieces are exactly the first budget of work in every cycle and the windows merge into one interval |
| `Simulator.CollectCycles` | internal/simulate/service.go:113-129 | The cycle loop collects the served pieces and the frames of all cycles that start before the work ends |
| `Simulator.ServeCycle` | internal/simulate/service.go:116-128 | The budget loop of one cycle |
| `Simulator.ServeUsesBudget` | internal/simulate/service.go:116-128 | One cycle serves exactly the earliest instants of work inside it up to its budget |
| `Simulator.PiecesAreAvailableWork` | internal/simulate/service.go:113-130 | The pieces of all cycles cover exactly the budgeted work |
| `Simulator.AvailableTotal` | internal/simulate/service.go:105-131 | The available time is the sum over the cycles of min(budget, work inside the cycle) |
| `Simulator.FullBudgetCoversAllWork` | internal/simulate/service.go:105-131 | A budget of at least a whole cycle makes all work available |
| `Simulator.FramesCover` | internal/simulate/service.go:113-115 | The clipped cycle windows cover one gap-free range |
| `Simulator.IdleIsNeverClamped` | internal/simulate/service.go:246-252 | Idle time is window time minus work time and never negative, so the clamp never fires |
| `Simulator.EarliestAnchor` | internal/simulate/service.go:65-77 | The anchor is the earliest planned instant of the day before the work starts, or the work's start |
| `Simulator.ClipToDay` | internal/simulate/service.go:40-50 | The work of the day as separated intervals |
| `NetGain.NeverLosesExactlyWhen` | internal/simulate/service.go:105-131 | Whatever work starts at an instant, an earlier anchor makes at least as much of it available if and only if the budget lasts a whole window or the anchor is a whole number of windows ahead |
| `NetGain.NetGainIs` | internal/simulate/service.go:78-98 | The reported net gain of every simulation is the difference of what its two anchors make available, in whole minutes |
| `NetGain.NetGainIsNotNegative` | internal/simulate/service.go:65-98 | A simulation whose budget lasts a whole window, whose scheduled anchor is a whole number of windows ahead, or whose work fits into the first window never reports a loss |
| `NetGain.SomeWorkReportsALoss` | internal/simulate/service.go:65-98 | The converse in whole minutes: with a budget shorter than a window and a preheat that is not whole windows ahead, a day that reaches two windows and a budget past the start of work has work for which every simulation reports a loss |
| `NetGain.NetGainCanBeNegative` | internal/simulate/service.go:98-98 | A concrete day whose simulation reports a net gain of -59 minutes |
| `Timeline.StrategyTimeline` | internal/simulate/service.go:135-164 | The segments tile the day without gaps or overlaps, are non-empty, differ from their neighbours, and name the right kind at every instant |
| `Timeline.TimelineIsUnique` | internal/simulate/service.go:135-164 | That description determines the segments uniquely |
| `Timeline.CoveredLength` | internal/simulate/service.go:78-98 | The summed length of the available segments is the measure of available work |
| `Timeline.KindIsConstantBetween` | internal/simulate/service.go:145-156 | Between two neighbouring boundaries the kind does not change, so sampling the midpoint is exact |
| `Timeline.UniqueTimes` | internal/simulate/service.go:318-329 | Strictly increasing, with exactly the given instants |
| `Timeline.Boundaries` | internal/simulate/service.go:136-143 | Sorted boundaries from day start to day end that contain every interval end |
| `Timeline.Classify` | internal/simulate/service.go:148-156 | The kind of an instant |
| `Intervals.MergeIntervals` | internal/simulate/service.go:171-195 | Sorted, strictly separated, non-empty intervals covering exactly the same instants |
| `Intervals.CanonicalIsUnique` | internal/simulate/service.go:171-195 | There is only one such list for a set of instants |
| `Intervals.MergeSorted` | internal/simulate/service.go:184-194 | The merge loop alone |
| `Intervals.KeepNonEmpty` | internal/simulate/service.go:172-177 | Filtering keeps the instants |
| `Intervals.ClipInterval` | internal/simulate/service.go:197-205 | Clipping is intersection with the range |
| `Intervals.CoverageDuration` | internal/simulate/service.go:226-244 | The measure of the instants in both lists |
| `Intervals.ContainsInstant` | internal/simulate/service.go:331-338 | Membership in the union |
| `Intervals.DurationIsMeasure` | internal/simulate/service.go:218-224 | The total duration of ordered intervals is the number of their instants |
| `Planner.PlanDay` | internal/schedule/planner.go:26-155 | The loops of the day plan compute the plan the theorems below are about, with the same error cases |
| `Planner.PlanAnchor` | internal/schedule/planner.go:90-152 | The plan of one anchor: missed for every account without allowed time, otherwise one slot per account in rank order |
| `Planner.PlanAllAnchors` | internal/schedule/planner.go:88-152 | The loop over the anchors, failing with the first window that leaves its date |
| `Planner.ResolveAllowed` | internal/schedule/planner.go:97-105 | The allowed intervals that resolve, in order |
| `Planner.AllMissed` | internal/schedule/planner.go:117-130 | One missed occurrence per account in rank order |
| `Planner.CollectAnchors` | internal/schedule/planner.go:73-87 | The anchor loop |
| `Planner.IntervalDuration` | internal/schedule/planner.go:196-204 | Adds up the non-empty intervals |
| `Planner.InstantAtOffset` | internal/schedule/planner.go:206-215 | Walks the intervals to an offset |
| `Planner.ParseSkips` | internal/schedule/planner.go:65-72 | The set of skipped minutes, or a failure |
| `Plans.PlanIgnoresAccountOrder` | internal/schedule/planner.go:181-194 | The plan of a day does not change when the scheduled accounts are permuted |
| `Plans.RankingIsTotal` | internal/schedule/planner.go:181-194 | Rank and then key is a total order, whatever the digest |
| `Plans.AnchorsAreTheGrid` | internal/schedule/planner.go:73-87 | The anchors are exactly the grid points inside work that are not skipped, in increasing order |
| `Plans.AnchorsLeaveRoom` | internal/schedule/planner.go:90-95 | For an accepted configuration no derived window crosses midnight for any generated anchor |
| `Plans.ActiveConfigPlans` | internal/domain/config.go:139-179 | An accepted configuration with work and preheat settings is planned on every date |
| `Plans.ValidConfigPlans` | internal/domain/config.go:171-178 | Planning an accepted configuration fails exactly when a selected workday lacks the preheat settings; an enabled one never fails |
| `Plans.EveryAccountOncePerAnchor` | internal/schedule/planner.go:88-152 | Exactly one occurrence per anchor and account |
| `Plans.OccurrenceIDIsInjective` | internal/schedule/planner.go:168-170 | An identity determines date, index and account, even for keys with slashes |
| `Plans.DateTextIsInjective` | internal/schedule/planner.go:50-51 | A rendered date determines the date |
| `Plans.ItoaRoundTrips` | internal/schedule/planner.go:115-115 | Parsing a rendered index gives it back |
| `Plans.PadRoundTrips` | internal/schedule/planner.go:50-51 | Parsing a padded number gives it back |
| `Plans.PlanIdsAreDistinct` | internal/schedule/planner.go:139-151 | The identities of one day's plan are pairwise different |
| `Plans.PlansOfDifferentDatesAreDisjoint` | internal/schedule/planner.go:139-151 | Plans of different dates share no identity, even under different configurations |
| `Slots.OccurrenceLiesInside` | internal/schedule/planner.go:139-151 | With at most one offset change in reach, an occurrence is missed exactly without allowed time, and otherwise lies in allowed time, inside its window, after exactly its slot of allowed time |
| `Slots.SlotsIncreaseExactlyWhen` | internal/schedule/planner.go:139-141 | The slots strictly increase if and only if there is at least one unit of allowed time per account |
| `Slots.PlannedInRankOrder` | internal/schedule/planner.go:139-151 | Then the planned instants strictly increase in rank order |
| `Slots.OffsetLandsInside` | internal/schedule/planner.go:206-215 | The fallback after the last interval is never reached |
| `Slots.OffsetCountsAllowedTime` | internal/schedule/planner.go:206-215 | The instant at an offset has exactly that much allowed time before it |
| `Slots.LaterOffsetIsLater` | internal/schedule/planner.go:206-215 | A larger offset is a later instant |
| `Slots.SlotProductFits` | internal/schedule/planner.go:140-140 | The slot product fits a signed 64-bit integer for up to 50,000 accounts |
| `Slots.ProductsFitExactlyWhen` | internal/schedule/planner.go:140-140 | The slot products of all accounts fit a signed 64-bit integer if and only if the allowed time times twice the accounts less one does |
| `Slots.DayProductFits` | internal/schedule/planner.go:124-140 | For every window of a day with at most one offset change the slot products fit if and only if the allowed time times twice the accounts less one does, for which the same of the window length is enough |
| `Slots.AllowedTimeFitsTheWindow` | internal/schedule/planner.go:107-137 | The allowed time is positive and no longer than the reported window |
| `Slots.WindowIsBounded` | internal/schedule/planner.go:107-119 | With one offset change, a reported window is at most 1439 minutes and the amount by which the clock falls back |
| `Slots.ResolvedAreOrdered` | internal/schedule/planner.go:99-105 | Resolved allowed intervals are ordered and disjoint |
| `Slots.AllowedIsInsideWindow` | internal/schedule/planner.go:107-137 | Every resolved allowed interval lies inside the reported window |
| `Slots.NeverInABlackout` | internal/schedule/planner.go:96-151 | Where no backward offset change is in reach of the day, the wall minute of a planned instant is in the window and never blacked out |
| `Slots.ShowsItsOwnMinutesExactlyWhen` | internal/schedule/local_time.go:95-108 | With one offset change, a resolved interval shows only its own wall minutes if and only if the change does not fold back before its start |
| `Blackouts.AllowedTimeIsOpenExactlyWhen` | internal/schedule/planner.go:96-105 | With one offset change around the day, all allowed time of a window shows minutes of the window that are not blacked out if and only if the clock does not fall back inside an allowed piece to a minute before that piece |
| `Blackouts.PlansAreOpenExactlyWhen` | internal/schedule/planner.go:96-151 | The same condition decides exactly whether the plan of a window, over all rankings of accounts, never shows a blacked-out minute or one outside the window |
| `Slots.SecondCopyOfABlackoutCanBeChosen` | internal/schedule/planner.go:96-151 | A concrete fall-back night on which a planned instant shows a blacked-out wall minute |
| `PlanGrid.PlanIsMadeForTheGrid` | internal/schedule/planner.go:35-155 | For an accepted configuration with something to do, the plan is made for exactly the minutes a whole number of windowHours hours after the start of work that lie inside work and are no skip time; the period indices number them in increasing order, each holds every scheduled account once, and identity, date, missed flag and reported window are those of the window ending lead minutes before the minute |
| `PlanGrid.PlanFollowsTheDigests` | internal/schedule/planner.go:181-194 | The occurrences of one minute stand in the order of their digests, and of their keys where the digests agree |
| `PlanGrid.PlannedInTheMiddle` | internal/schedule/planner.go:139-151 | With at most one offset change, the n-th account of a minute is planned in the middle of the n-th of equal parts of the allowed time |
| `PlanGrid.OpenMinutesAreAllowed` | internal/schedule/planner.go:96-105 | With at most one offset change, the first showing of every minute of the window that is not blacked out is allowed time |
| `PlanGrid.PlanFailsExactlyWhen` | internal/schedule/planner.go:20-96 | For every configuration, accepted or not: the exact condition of a missing plan, and an empty plan with nothing selected |
| `DayPlans.EveryAccountOncePerDay` | internal/schedule/planner.go:35-155 | The plan of an accepted configuration for a workday holds every scheduled account exactly once per anchor and nothing else |
| `DayPlans.IdentitiesAreUnique` | internal/schedule/planner.go:139-151 | No two occurrences in the plans of accepted configurations share an identity, within a day or between dates |
| `DayPlans.DayOccurrenceLiesInside` | internal/schedule/planner.go:88-152 | Every occurrence of an accepted day plan is missed exactly without allowed time, and otherwise lies in allowed time, inside its window, after exactly its slot of allowed time |
| `DayPlans.DayIsInRankOrder` | internal/schedule/planner.go:139-151 | Occurrences of one anchor of an accepted day plan are planned strictly in plan order when there is a unit of allowed time per account |
| `DayPlans.DayKeepsBlackouts` | internal/schedule/planner.go:96-151 | No occurrence of an accepted day plan shows a blacked-out minute where the clock does not go back in reach of the day |
| `DayPlans.DayKeepsBlackoutsUnlessItFolds` | internal/schedule/planner.go:96-151 | With one offset change an accepted day plan keeps the blackouts of every window none of whose allowed pieces folds back |
| `LocalTime.ResolveLocalMinute` | internal/schedule/local_time.go:26-49 | The 36-hour scan returns the globally earliest instant showing the minute, and nothing exactly if none exists, for every zone with whole-minute offsets within 18 hours |
| `LocalTime.ShownIsResolved` | internal/schedule/local_time.go:26-49 | Every minute shown at any instant is resolved, at or before that instant |
| `LocalTime.ResolutionIsMonotone` | internal/schedule/local_time.go:26-49 | With at most one offset change in reach, a later wall minute resolves strictly later |
| `LocalTime.FirstValidMinute` | internal/schedule/local_time.go:74-87 | The first minute of the range that resolves |
| `LocalTime.FirstValidIsMonotone` | internal/schedule/local_time.go:74-87 | First valid minutes keep the order of their ranges |
| `LocalTime.ResolveWallInterval` | internal/schedule/local_time.go:95-108 | The resolved interval, or nothing for a malformed or wholly nonexistent one |
| `LocalTime.ResolveWindowBoundaries` | internal/schedule/local_time.go:157-167 | The resolved boundaries of a window |
| `LocalTime.ShowsOnlyItsOwnMinutes` | internal/schedule/local_time.go:95-108 | Where no backward change is in reach of the day, every instant of a resolved interval shows a minute of the wall interval |
| `LocalTime.NeverBackwardExactlyWhen` | internal/schedule/local_time.go:26-49 | A zone with one offset change around a day never goes back in reach of it if and only if the change is not backward or out of reach |
| `LocalTime.SubtractBlackouts` | internal/schedule/local_time.go:125-155 | The cursor loop |
| `LocalTime.SubtractCovers` | internal/schedule/local_time.go:125-155 | On ordered blackouts the result is exactly the base minus their union, as ordered, disjoint, non-empty intervals |
| `Config.ValidateConfig` | internal/domain/config.go:67-180 | Accepts exactly the configurations that meet the declarative definition |
| `Config.ValidatePeriods` | internal/domain/config.go:182-207 | Accepts exactly parsed, sorted, non-overlapping periods |
| `Config.ValidatePreheat` | internal/domain/config.go:139-155 | Accepts exactly paired settings in range whose window stays on the date of every work period |
| `Config.UniqueInts` | internal/domain/config.go:86-95 | Weekdays in range and pairwise different |
| `Config.UniqueClocks` | internal/domain/config.go:113-122 | Skip times well-formed and pairwise different |
| `Config.UniqueAccounts` | internal/domain/config.go:157-169 | Accounts non-blank, known and pairwise different |
| `ConfigOutcomes.AcceptedExactlyWhen` | internal/domain/config.go:67-207 | The accepted configurations field by field: zone, periods as clocks in order, every number range, the preheat window on the date of every work period, weekdays, skip times and accounts proper and named once, work and preheat settings if enabled |
| `ConfigOutcomes.ClocksAreRendered` | internal/domain/config.go:209-222 | A text is a clock iff it is the two-digit rendering of a minute of the day, and it stands for that minute |
| `ConfigOutcomes.ClockRoundTrips` | internal/domain/config.go:209-222 | Parsing a rendered minute gives it back |
| `Sorting.SortIgnoresOrder` | internal/schedule/planner.go:186-192 | Sorting by a total order depends only on the multiset |
| `Sorting.SortSorts` | internal/simulate/service.go:178-183 | The result is sorted |
| `Domain.TrimIsIdempotent` | internal/app/runtime.go:354-356 | A normalized key is a fixed point of normalizing |
| `Domain.TrimStripsSpace` | internal/app/runtime.go:354-356 | Trimming takes away only white space, at both ends, and leaves none there |

## Left out

- timelineSegments: the second chart, with zero-length preheat markers, is not modelled; `StrategyTimeline` is.
- Simulator.Run: the resolved work periods, the day boundaries and the planned occurrences are inputs; days begin after the year 1.
- Planner.PlanDay: the calendar (weekday and ordinal of a date) is part of the given date; zones have whole-minute offsets, so historic sub-minute offsets are not covered.
- Config.ValidateConfig: the validation mode and the texts of the errors are not modelled; whether the zone loads is an input.
- ResetRuntime.Runtime.ResetQuota: one request without others in between; the interleavings are in `ResetProtocol`, and a caller that must wait is left waiting there.
- Quota.Service.Evaluate: the three sections of an evaluation follow one another; `QuotaRuns` interleaves them and `QuotaDecisions` says what is decided then.
- BulkRuns.WorkIsConserved: what a probe does with its account, and the check-and-install of one active run at a time, are not modelled.
- Scheduler.Scheduler.VisitOccurrence: a timer is named by its kind and occurrence, where the source uses prefixed strings; planned identities start with a digit, so the prefixes never clash.
- Scheduler.Repository.Save: the state file is one value with its schema version left out; a file that cannot be read is a lost write.
- Holds that change while one scheduler command runs are placed before or after that command.
- The audit record is modelled by key, account, request time, outcome and finish time; masked identity, prior credits, HTTP category and correlation identifier are carried along unread by the source and are left out.
- HTTP, the host interface, credentials, the management router, logging and the web interface.
- Blank account keys, which a reset request refuses before anything else, are not modelled.
- Parsing of usage and credit documents, and the check that an idempotency key is a canonical UUID.
- Operation history, its trimming, configuration defaults, and the mapping of errors to codes and messages.
- SHA-256, the IANA database and date formatting are abstract; channel buffering and the Go memory model are replaced by atomic sections and unordered events.
