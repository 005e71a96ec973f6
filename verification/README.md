# A verified model of the NITRIS bot's protocol cores

The bot serves many students from one fragile university portal. Its difficult parts are small concurrent protocols
(admission to the portal, login pacing, leases on shared cache rows, an event outbox, a retrying job queue, pooled
sessions, file delivery) and a few transformations that must agree with a simpler description (timetable layout,
now/next, the cached seating view, the holiday calendar, truncation of escaped text, inbox persistence). This project
states what those parts guarantee and proves it, and where a guarantee needs a side condition it proves exactly which
one and gives the run that shows it is needed.

## How it is built

* A file per component. What the program does by changing an object in place is a `class` whose methods are proved
  equal to small functions on values; the functions are then the steps of a state machine.
* A concurrent component is a system of tasks that can switch only at await points; each guarded SQL update is one
  atomic step. A run is a sequence of states and labels; the main results quantify over all runs.
* The clock is monotone. Times are reals (gateway, pacing), integers (leases, outbox, sessions) or microseconds
  (now/next). Tunables are parameters with the lower bounds the program needs.
* Calls to the portal, to Telegram and to other services appear only as outcomes chosen freely by the environment.

| file | component |
|---|---|
| `Gateway`, `GatewayRuns`, `GatewayCircuit` | circuit breaker with a half-open probe, adaptive admission, slots handed back for pacing; the breaker and the adaptation told from the run |
| `LoginPacing`, `PacingProgress` | token bucket with a two-class queue; its upper bound, and that it serves |
| `Lease`, `LeaseHistory`, `Metadata` | leases on shared cache rows, the row told from its writes, and the portal metadata written into those rows |
| `Attachments`, `DeliverySlots` | one attachment delivery and its budgets; the two semaphores of attachments and of question papers, over all deliveries |
| `Papers` | one question-paper delivery, whose recoveries nest |
| `Outbox`, `DispatchCycle` | one event over all dispatchers; one cycle over the event table |
| `JobQueue`, `JobEndings`, `JobQueueRuns`, `JobChains`, `JobLanes` | single-flight job queue with retry chains of futures, under any cancellations; what ends and what is tried again; the end of a chain; lanes and workers |
| `SessionPool`, `SessionRuns`, `SessionTimes` | pooled sessions, one lock per entry; what each stretch of a job does, and how long an entry lives |
| `Inbox` | inbox persistence and the dedupe in front of it |
| `Timetable` | rowspan alignment against the table layout of the WHATWG HTML Standard, section 4.9.12.1 |
| `NowNext`, `SeatGrid`, `Seating`, `Holidays`, `Truncation` | weekly minimum, cached view, calendar and month walk, entity-safe truncation |
| `StableSort`, `Words`, `Wrappers` | list.sort with a key, characters and decimal numbers, `Option` |

## Where the code falls short of its comments

Each of these is a lemma, together with the exact condition under which the comment is right.

* Gateway: a half-open probe that must wait for capacity finds its own flag raised when it wakes and is rejected;
  the flag is then never lowered and nobody is admitted again (`ProbeRejectsItself`, `StuckForever`, `HonestFlagStep`).
* Gateway: a task cancelled while it re-takes its slot is still decremented by the `finally` section
  (`OrphanDrivesCounterNegative`, `SlotsConservedIff`).
* Gateway: a probe that outlives its half-open episode and ends under the next one's request lowers the flag that
  guards it (`GuardedStep`, `SurvivorAdmitsTwo`).
* Gateway: a cancelled `finally` section can leave a sleeper without its wake-up (`WakeUpStep`,
  `CancelledFinallyLosesWakeUp`).
* Leases: the marks are guarded by the status and not by the owner, and invalidation is not guarded
  (`ExclusiveStep`, `TwoInvalidators`, `LateMarkFreesAnother`); the operator's reset keeps the file id
  (`WellKeptStep`).
* Attachments and question papers: a recovery keeps its delivery permit and asks for one more, so as many simultaneous
  rejections of stored file ids as there are delivery permits stop all cached deliveries, and with no more acquisition
  permits than that also all acquisitions (`StaleFilesJam`, `SendsJammedIff`, `SlotsJammedIff`). An attachment's caller
  gives up after a time, which frees its permits; nothing cancels a paper's delivery (`JamIsForever`).
* Question papers: a recovery keeps the permits of every level above it, so a request whose file ids are rejected waits
  for itself if there are no more delivery permits than the claims it loses to rivals and one, or a single acquisition
  permit (`Papers.QPaperService.DeliverCached`). The delivery after an acquisition forgets the requester, so a recovery
  below it always fails, and marks the row it has just claimed as failed. A requester without credentials leaves its
  claim unmarked.
* Outbox: a crash or an error between a send and its mark, or a second dispatcher at an event under way, delivers twice
  (`OneSendStep`, `CrashBeforeMarkSendsTwice`, `StaleDispatcherSendsTwice`).
* Outbox: an exception while formatting or sending counts an attempt and never looks at the budget, so an event that
  always raises is tried for ever (`OnlyFailuresExhaust`, `RaisingIsForever`).
* Job queue: the retry of a keyed job joins its own pending future unless the queue is full at that moment, so it never
  runs; its callers, and everybody who joins them, wait until one of them times out, which cancels the shared future
  (`KeyedRetrySettlesIff`, `KeyedRunsOnce`, `DeadlockStep`, `DeadlockIsForever`, `DeadlockAttracts`).
* Job queue: after such a cancellation the next request for the key is admitted beside the job that still runs
  (`SingleFlightStep`, `CancelBreaksSingleFlight`), and a retry whose awaited future is cancelled leaves its own pending
  with nobody to settle it (`HeldStep`, `GivenUpFutureForgetsAnother`).
* Session pool: an entry dropped while another job queues on its lock lets two jobs of one user work at once
  (`HonestStep`, `DroppedEntrySplitsUser`).
* Inbox: a second edit of a message is silent until retention has purged the report of the first, and is reported then
  (`EditReportedIff`, `SecondReportNeedsPurge`, `PurgedEditIsReportedAgain`).
* Now/next: the graced end of a class wraps at midnight (`GraceMustNotWrap`).

## Model

| member | source | states |
|---|---|---|
| Gateway.NitrisGateway.TryAdmit | app/nitris/gateway.py:170-211 | one locked pass of admission: recovery of an open circuit, the probe flag raised before capacity is looked at, the reserved slots of interactive callers, and the three verdicts |
| Gateway.NitrisGateway.NotePortalResponded | app/nitris/gateway.py:279-287 | a per-user fault closes a half-open circuit and changes nothing else |
| Gateway.NitrisGateway.RecordSuccess | app/nitris/gateway.py:468-486 | closes a half-open circuit, resets the errors, and on the tenth success steps the cap and the login interval back |
| Gateway.NitrisGateway.RecordError | app/nitris/gateway.py:488-531 | a portal fault re-trips a half-open circuit at once; otherwise it counts, adapts at three and trips at the threshold |
| Gateway.NitrisGateway.Leave | app/nitris/gateway.py:268-277 | the `finally` section gives the slot back and lowers the flag of a probe |
| Gateway.NitrisGateway.ReleaseSlot | app/nitris/gateway.py:387-398 | hands a slot back, guarded against going below zero |
| Gateway.NitrisGateway.TryReacquire | app/nitris/gateway.py:400-405 | takes a slot back if the adaptive cap has room |
| GatewayRuns.BooksBalance | app/nitris/gateway.py:202-277 | on every run, with any cancellations, the counter is the number of slot holders up to three kinds of miscount, and the bounds hold |
| GatewayRuns.SlotsConserved | app/nitris/gateway.py:387-432 | without a cancellation inside re-acquisition or the `finally` section the counter is exactly the number of tasks holding a slot, within the configured cap; the adaptive cap stays between min(2, configured) and configured; the release guard never fails |
| GatewayRuns.SlotsConservedIff | app/nitris/gateway.py:268-277 | with any cancellations the counter is off by the cancelled `finally` sections and skipped give-backs so far, less the slots returned twice, each counted off the run's own steps; it is right exactly when these balance |
| GatewayRuns.OrphanDrivesCounterNegative | app/nitris/gateway.py:400-432 | four steps after which a cancelled re-acquisition has driven the counter to minus one |
| GatewayRuns.WakeUpStep | app/nitris/gateway.py:268-277 | a step loses a wake-up exactly if it cancels the only `finally` section due to notify an overlooked sleeper |
| GatewayRuns.NoWakeUpLost | app/nitris/gateway.py:202-277 | on every run without such a step, a sleeping waiter whose limit has room implies a task about to run the notifying `finally` |
| GatewayRuns.CancelledFinallyLosesWakeUp | app/nitris/gateway.py:268-277 | a run that ends with such a step and leaves one sleeper with room, un-notified and alone |
| GatewayRuns.HonestFlagStep | app/nitris/gateway.py:185-207 | the two kinds of step, and only those, after which a raised probe flag no longer means a probe in flight |
| GatewayRuns.FlagIsHonest | app/nitris/gateway.py:154-159 | if no probe blocks for capacity or is lost in its `finally`, a raised flag always means a probe in flight |
| GatewayRuns.ProbeRejectsItself | app/nitris/gateway.py:185-207 | the run in which a probe that waits for capacity rejects itself and leaves the flag raised |
| GatewayRuns.StuckForever | app/nitris/gateway.py:185-207 | a half-open gateway with a raised flag and nobody in flight admits nobody, whatever happens next |
| GatewayRuns.GuardedStep | app/nitris/gateway.py:268-277 | in a half-open episode, a step leaves a request of the episode unguarded by the flag exactly if it ends a probe while another request of the episode is in flight; and that probe is of an older admission |
| GatewayRuns.OneRequestPerEpisode | app/nitris/gateway.py:154-159 | on every run without such a step, with any cancellations, at most one request admitted in the current half-open episode is in flight |
| GatewayRuns.SurvivorAdmitsTwo | app/nitris/gateway.py:268-277 | a run with such a step that ends with two requests of one episode in flight |
| GatewayRuns.ErrorsAreFaults | app/nitris/gateway.py:488-508 | the error counter never exceeds the portal faults since the last success, per-user faults never counting |
| GatewayRuns.TripNeedsThreshold | app/nitris/gateway.py:519-531 | closed goes to open only on a portal fault, with at least the threshold of them since the last success |
| GatewayCircuit.CircuitMoves | app/nitris/gateway.py:172-184 | on every run: closed trips exactly on the portal fault that brings those counted since the last success to the threshold; half-open trips exactly on a portal fault and closes exactly on a success or a per-user fault; open is left exactly by a caller that comes the recovery time after the last trip, for half-open |
| GatewayCircuit.OutageHolds | app/nitris/gateway.py:172-184 | on every run, from a trip on and as long as nobody calls later than the recovery time after it, the circuit stays open since that trip, and every caller is turned away with the gate unchanged |
| GatewayCircuit.OutageEnds | app/nitris/gateway.py:172-211 | the first caller after that finds the circuit half-open, and, unless an older probe is in flight, becomes the probe and has a slot or waits for one |
| GatewayCircuit.CountersAreExact | app/nitris/gateway.py:468-531 | on every run the error and success counters, the time of the last trip and the number of trips are those of the run |
| GatewayCircuit.AdmissionIs | app/nitris/gateway.py:170-211 | a caller gets a slot, waits or is turned away exactly as the circuit and the free slots say, and is a probe exactly if a circuit that is not closed lets it through, with room or without |
| GatewayCircuit.SlotStep | app/nitris/gateway.py:268-277 | what pacing, the re-taking of a slot, the `finally` section and the endings do to a slot and to the probe flag |
| GatewayCircuit.WakesAll | app/nitris/gateway.py:268-277 | giving a slot back wakes every other sleeper, and nothing else does |
| GatewayCircuit.AdaptsExactly | app/nitris/gateway.py:468-516 | on every run the cap falls by one exactly at the third counted fault in a row, if above two, and rises by one exactly at each tenth success in a row, if below the configured one; the login interval moves with it by its own steps |
| LoginPacing.LoginPacer.RefillTokens | app/nitris/gateway.py:318-328 | refills by elapsed time over the current interval, up to the burst; what that gives every caller is `EveryStretchServes` |
| LoginPacing.LoginPacer.DispatchTokens | app/nitris/gateway.py:330-341 | serves waiters while whole tokens last, in the order of `Pick` |
| LoginPacing.LoginPacer.JoinQueue | app/nitris/gateway.py:344-360 | a caller joins the queue and tokens are dispatched |
| LoginPacing.LoginPacer.LeaveQueue | app/nitris/gateway.py:360-380 | a waiter cancelled before its grant leaves the queue |
| LoginPacing.LoginPacer.WakeUp | app/nitris/gateway.py:364-373 | a timed wake refills and dispatches, whoever is woken |
| LoginPacing.Pick | app/nitris/gateway.py:334-338 | the waiter served is the earliest interactive one, or else the earliest |
| LoginPacing.RateBound | app/nitris/gateway.py:318-380 | in any window of any run, however the interval adapts, the grants number at most burst plus length over the configured interval |
| LoginPacing.GrantsAreFifo | app/nitris/gateway.py:330-342 | every grant serves its class in order of arrival, and no ticket is granted twice |
| LoginPacing.InteractiveFirst | app/nitris/gateway.py:330-342 | on every run, when a background ticket is granted, every interactive ticket that had arrived was granted before it or withdrawn |
| PacingProgress.EveryStretchServes | app/nitris/gateway.py:318-380 | on every run each arrival and each timed wake has the tokens left and those earned since the last refill, up to the burst, grants one login for each whole one, and stops only when nobody waits or less than one is left |
| PacingProgress.NobodyWaitsBesideAToken | app/nitris/gateway.py:330-341 | on every run nobody waits while a whole token is in the bucket |
| PacingProgress.DueWakeServes | app/nitris/gateway.py:318-373 | on every run a stretch at which n more tokens are due, by the interval of a millisecond at least, grants at least as many logins as n if so many wait |
| PacingProgress.FirstCallersPass | app/nitris/gateway.py:344-360 | on every run that starts with arrivals, as many as the burst are served at once |
| PacingProgress.IdleKeepsTokens | app/nitris/gateway.py:374-380 | a withdrawal and an adaptation move neither tokens nor grants |
| PacingProgress.WithdrawnIsNeverGranted | app/nitris/gateway.py:360-380 | on every run a ticket withdrawn before its grant is never granted |
| Lease.CacheRow.ClaimForAcquisition | app/services/qpaper_service.py:317-361 | the compare-and-swap claim: retryable, or in progress past the stale window |
| Lease.CacheRow.Mark | app/services/qpaper_service.py:653-721 | the three marks, guarded by the status only; the attachment table keeps its lock fields |
| Lease.CacheRow.ReapStaleLock | app/services/attachment_service.py:690-707 | the reaper frees leases older than twice the stale window and reports whether it did |
| Lease.CacheRow.InvalidateFileId | app/services/attachment_service.py:666-678 | the unguarded reset of a row whose file id was rejected |
| Lease.ExclusiveStep | app/services/qpaper_service.py:260-275 | a step breaks exclusivity exactly if it takes the lease of a live worker |
| Lease.AtMostOneClaimant | app/services/qpaper_service.py:317-361 | if workers mark or die within the stale window and no unguarded write hits a row in progress, at most one worker is live, it holds the lease, and neither a claim nor the reaper touches it |
| Lease.ClaimsAreSpaced | app/services/attachment_service.py:293-319 | a claim over an unreleased claim is strictly more than the stale window later |
| Lease.TwoInvalidators | app/services/attachment_service.py:666-678 | the run in which a second invalidation hits the first one's lease |
| Lease.LateMarkFreesAnother | app/services/qpaper_service.py:653-721 | the run in which a late mark frees another worker's lease |
| Lease.WellKeptStep | app/bot/handlers/admin.py:153-164 | exactly one write breaks "a file id if and only if available": the operator's reset of an available row |
| Lease.RowsStayWellKept | app/services/examination_service.py:63-86 | over every run, an available row has its file and a row in progress its claim time; without such a reset a file id also means available |
| Lease.SettledRowIsFrozen | app/services/qpaper_service.py:653-721 | claims, deaths, reaps and late marks never change an available, not-available or permanent row |
| LeaseHistory.MarkIs | app/services/attachment_service.py:473-540 | after a mark of a row in progress the row is claimable exactly if the failure was not permanent, not available exactly after an absence, available exactly after an upload and with its file id; a mark of any other row changes nothing |
| LeaseHistory.ClaimIs | app/services/qpaper_service.py:317-361 | a claim takes the row, at its own time and with one attempt more, exactly if the row is retryable or its lease past the stale window; otherwise nothing changes |
| LeaseHistory.OtherWritesAre | app/services/attachment_service.py:666-707 | what the reaper, an invalidation, a stored file, a relisting and the operator's reset write, and when they write nothing |
| LeaseHistory.RowRemembers | app/services/attachment_service.py:473-540 | on every run a row holds the file id of the last upload that took effect or was stored directly and not rejected since, and its attempts are the claims won since they were last reset |
| LeaseHistory.StatusStep | app/services/qpaper_service.py:653-721 | a step gives a row a status exactly if its label says so |
| LeaseHistory.StatusHasReason | app/services/qpaper_service.py:653-721 | on every run, available comes from an upload or a stored file, not available from an absence, permanent from a permanent failure, in progress from a claim won, each with no change of the status since |
| Metadata.PaperCatalog.PersistExam | app/services/examination_service.py:145-206 | one exam of one portal record: create, retarget, relist, or leave |
| Metadata.PaperCatalog.PersistSubjectMetadata | app/services/examination_service.py:112-206 | whatever the order and number of the records, each exam's paper depends only on the stored one and the last listed target |
| Metadata.MetadataRespectsLease | app/services/examination_service.py:117-204 | rows available, permanent or in progress are left as they are, and a row is not available afterwards exactly if it is unlisted and was so or was missing |
| Metadata.ListedIs | app/services/examination_service.py:145-206 | the target that counts is the last one a record of the subject lists for that very exam, mid-semester or end-semester |
| Metadata.AfterIs | app/services/examination_service.py:145-206 | a new paper is retryable with the listed target, or not available; a stored one follows the listed target, and is retryable with fresh attempts if it was not available |
| Papers.QPaperService.SendAttempts | app/services/qpaper_service.py:230-292 | the attempts: ending delivered, or rejected, exactly if the last send says so; with a budget of zero there is none |
| Papers.AttemptsAre | app/services/qpaper_service.py:230-292 | every attempt but the last was a flood or another error, and the last is of another kind or uses up the budget |
| Papers.QPaperService.DeliverCached | app/services/qpaper_service.py:220-292 | delivered exactly if the last attempt went through, a claim exactly if it was rejected, and an error otherwise; as many nested deliveries as there are permits at most, one portal download at most, one file received exactly if it reports so, all permits given back; and, if every file id is rejected, stuck exactly if the delivery permits are no more than the claims still to lose and one for a known requester, or the acquisition permits no more than that one; else one rejection per level |
| Papers.QPaperService.ClaimOrWaitAndDeliver | app/services/qpaper_service.py:294-315 | the same for a recovery or a cold request, which starts one level lower and so gets by with one delivery permit less |
| Papers.QPaperService.AcquireAndDeliver | app/services/qpaper_service.py:363-443 | without a requester it takes its permit, fails and marks; with one it ends and marks as download and upload did, but for missing credentials, which leave the claim unmarked |
| Papers.QPaperService.DownloadAndDeliver | app/services/qpaper_service.py:373-443 | one download for a known requester, and a delivery that no longer knows the requester |
| Papers.QPaperService.WaitAndDeliver | app/services/qpaper_service.py:445-497 | each reading has its ending: what appeared is delivered, a failed rival is challenged again, and the four others are the answer; stuck under the condition of a cached delivery |
| Papers.QPaperService.Deliver | app/services/qpaper_service.py:155-204 | the dispatch on the status read first: sent, answered, or claimed; with the exact condition for being stuck by either route |
| Outbox.SendsNeverExceedClaims | app/services/event_dispatcher_service.py:110-143 | on every run sends never exceed claims, a claimed event is not sent, a permanent failure counts as sent |
| Outbox.SentIsAbsorbing | app/services/event_dispatcher_service.py:148-182 | sent and permanently failed never go back, and a sent event is never claimed |
| Outbox.ClaimIs | app/services/event_dispatcher_service.py:110-143 | an event can be claimed exactly if it is neither sent nor failed for good, and not claimed within the stale window; a claim writes its time and remembers the attempts it read |
| Outbox.WriteIs | app/services/event_dispatcher_service.py:148-224 | a mark settles the row; a failure settles it for good if the user cannot be reached or the budget is spent; any other failure and an exception release it with one attempt more; a reap frees a claim of twice the stale window; nothing else writes it |
| Outbox.SettledHasReason | app/services/event_dispatcher_service.py:148-182 | on every run an event has failed for good exactly if some failure gave it up, and counts as sent exactly if it was marked or given up |
| Outbox.OneSendStep | app/services/event_dispatcher_service.py:110-224 | a step ends "one dispatcher, one send" exactly if it claims or reaps an event under way, releases it after its send or under another dispatcher, or crashes between a send and its mark |
| Outbox.DeliveredAtMostOnce | app/services/event_dispatcher_service.py:436-476 | on every run without such a step, at most one delivery |
| Outbox.TimelyDeliversOnce | app/services/event_dispatcher_service.py:436-476 | dispatchers that finish before their claim is stale, with no lost mark, take no such step |
| Outbox.CrashBeforeMarkSendsTwice | app/services/event_dispatcher_service.py:451-459 | a crash between the send and its mark delivers twice |
| Outbox.StaleDispatcherSendsTwice | app/services/event_dispatcher_service.py:207-224 | a dispatcher that outlives its claim delivers a second time |
| Outbox.BudgetIsExact | app/services/event_dispatcher_service.py:536-560 | on every run without such a step, an event whose sends always fail retryably is permanent exactly after the budget plus one failed attempts; crashes and reaps cost nothing |
| Outbox.OnlyFailuresExhaust | app/services/event_dispatcher_service.py:464-560 | with exceptions as well, it is permanent exactly if a send failed after as many failures and exceptions as the budget: exceptions count, but never consult the count |
| Outbox.RaisingIsForever | app/services/event_dispatcher_service.py:464-476 | for every n, a run after which an event whose handling raised n times is eligible again |
| DispatchCycle.EventTable.ClaimEvents | app/services/event_dispatcher_service.py:88-143 | claims exactly the first eligible events by id, up to the batch |
| DispatchCycle.FirstEligibleIsSound | app/services/event_dispatcher_service.py:116-125 | the batch is increasing and eligible, and an eligible event is in it unless the batch is full of smaller ids |
| DispatchCycle.EventTable.MarkEventSent | app/services/event_dispatcher_service.py:148-162 | sent, claim cleared, nothing else |
| DispatchCycle.EventTable.HandleSendFailure | app/services/event_dispatcher_service.py:518-560 | blocked, deactivated and exhausted are permanent, everything else is released with one attempt more; never delivered |
| DispatchCycle.EventTable.ReleaseEventClaim | app/services/event_dispatcher_service.py:184-205 | what an exception does to an event: released with one attempt more, whatever the budget |
| DispatchCycle.EventTable.DispatchSingleEvent | app/services/event_dispatcher_service.py:436-476 | one event is settled as its send went |
| DispatchCycle.EventTable.SendMessageDigest | app/services/event_dispatcher_service.py:478-516 | one send settles every event of the group alike |
| DispatchCycle.EventTable.DispatchGroup | app/services/event_dispatcher_service.py:409-432 | orphaned group, digest, or event by event, with the count of deliveries |
| DispatchCycle.EventTable.DispatchOnce | app/services/event_dispatcher_service.py:382-434 | each claimed event leaves the cycle unclaimed with exactly one outcome, as its own send or its user's digest went; all others are untouched; the count is the number of events newly delivered |
| DispatchCycle.EventTable.GroupByUser | app/services/event_dispatcher_service.py:404-408 | one group per user in order of first appearance, each in order of claim |
| DispatchCycle.GroupIs | app/services/event_dispatcher_service.py:404-408 | a group lists exactly the claimed events of its user, in the order of the claim |
| DispatchCycle.FateIs | app/services/event_dispatcher_service.py:409-432 | an event of a user without an account is orphaned; if the user has several claimed events, all messages, one digest of them decides; otherwise its own send does |
| DispatchCycle.SettledMeans | app/services/event_dispatcher_service.py:436-560 | who cannot be reached fails for good, a retryable failure only once the budget is spent, an exception never, and a delivery is sent with its attempts kept; events without a fate are untouched |
| DispatchCycle.CycleSettled | app/services/event_dispatcher_service.py:382-434 | settling all groups settles every claimed event as its send went |
| DispatchCycle.CycleConserves | app/services/event_dispatcher_service.py:382-434 | exactly one outcome per claimed event, none for the others, and the deliveries counted once |
| JobQueue.NitrisJobQueue.EnqueueJob | app/nitris/job_queue.py:193-240 | depth bound before the duplicate lookup, twice the cap for interactive jobs, single flight by key |
| JobQueue.NitrisJobQueue.JobDone | app/nitris/job_queue.py:318-373 | settles and frees the key, or leaves both to a retry, which exists exactly for a failure that is not permanent and within the budget |
| JobQueue.NitrisJobQueue.RetryDone | app/nitris/job_queue.py:388-408 | the retry task copies the outcome to the original future and frees the key |
| JobQueue.NitrisJobQueue.CancelDedup | app/nitris/job_queue.py:410-419 | cancels the pending future of a key, if any |
| JobEndings.FinishIs | app/nitris/job_queue.py:308-373 | when a handler ends, a retry of its job exists exactly if it raised, not for good, within the budget, with the job's future and key and the next attempt number; in every other case nobody holds the future, a pending one has the outcome, and the key is free |
| JobEndings.OnlyFailuresAreRetried | app/nitris/job_queue.py:308-373 | on every run, with any cancellations, a handler runs again for a chain only if every run before raised, not for good |
| JobEndings.EndingIsFinal | app/nitris/job_queue.py:308-373 | on every run, with any cancellations, once a run of the handler ends a chain, no later run belongs to it |
| JobEndings.RequestIs | app/nitris/job_queue.py:193-240 | a request is queued, with its own future in flight, exactly if there is room and nothing to join; otherwise nothing changes |
| JobEndings.AnswerIs | app/nitris/job_queue.py:193-240 | the rejection comes exactly without room, else the pending future of the key, else an own one |
| JobEndings.QueueIsBounded | app/nitris/job_queue.py:199-210 | on every run the queue holds twice its depth at most, and grows beyond the depth only by interactive jobs |
| JobEndings.WakeIs | app/nitris/job_queue.py:375-400 | a waking retry gives up without room, awaits the pending future of its key, or queues its job again and awaits that |
| JobEndings.EndIs | app/nitris/job_queue.py:388-408 | a retry passes the awaited outcome on to a pending future unless it is a cancellation, and frees the key either way |
| JobQueueRuns.ChainsInShape | app/nitris/job_queue.py:278-408 | on every run, with any cancellations: a future has one holder at most, a chain one head at most, its handler ran at most the retry budget plus one times, and a retry awaits a future of its key, its own or a later one |
| JobQueueRuns.OutcomesAreEarned | app/nitris/job_queue.py:278-408 | on every run, with any cancellations, a settled future is cancelled or carries the outcome of a chain of its key, and without a key that of its own chain |
| JobQueueRuns.SettledOnce | app/nitris/job_queue.py:318-408 | a settled future never changes, with any cancellations |
| JobQueueRuns.HeldStep | app/nitris/job_queue.py:388-408 | a step leaves a pending future without anybody to settle it exactly if its retry ends because the future it awaited was cancelled |
| JobQueueRuns.PendingIsHeld | app/nitris/job_queue.py:278-408 | on every run without such a step for it, a pending future has a holder |
| JobQueueRuns.GivenUpFutureForgetsAnother | app/nitris/job_queue.py:388-408 | a run of one key in which two callers give up and the future of a third stays pending, with nobody left to settle it |
| JobQueueRuns.PendingMoves | app/nitris/job_queue.py:375-408 | a pending future with a holder waits for one that can move, for a keyed retry that awaits itself, or for a forgotten future; along the same key, and without a key along the same chain |
| JobChains.RankStep | app/nitris/job_queue.py:318-408 | every step of a chain, keyed or not, lowers its rank, and no other step changes it, cancellations included |
| JobChains.ChainEnds | app/nitris/job_queue.py:318-408 | on every run, with any cancellations, a chain takes at most as many steps as its rank |
| JobChains.RankZeroIsOver | app/nitris/job_queue.py:318-408 | the rank is zero exactly if no job or retry of the chain is left |
| JobChains.RankZeroIsSettled | app/nitris/job_queue.py:388-408 | at rank zero every future of the chain that was never forgotten is settled |
| JobChains.FreshChain | app/nitris/job_queue.py:193-240 | an accepted request starts at five for each retry and two |
| JobQueueRuns.SingleFlightStep | app/nitris/job_queue.py:212-217 | a step lets a second job of a key run beside the first exactly if it admits a request for the key while the future in flight is done and a job of the key is queued, running or in backoff |
| JobQueueRuns.OneFlightPerKey | app/nitris/job_queue.py:193-240 | on every run without such a step, with any cancellations, a key has one job at most queued, running or in backoff |
| JobQueueRuns.CancelBreaksSingleFlight | app/nitris/job_queue.py:410-423 | a run in which a cancellation makes the next request such a step |
| JobQueueRuns.KeyedRunsOnce | app/nitris/job_queue.py:318-408 | on every run that cancels no future of a key, the key has one holder at most, its pending future is the one in flight, and the handler of each of its chains runs once at most: no retry of it reaches the queue |
| JobQueueRuns.KeyedRetryJoinsItself | app/nitris/job_queue.py:212-217 | for a key nobody cancelled, the retry meets its own future in flight and joins it |
| JobQueueRuns.KeyedRetrySettlesIff | app/nitris/job_queue.py:388-405 | the callers of a keyed retry get an answer exactly if the queue is full when it wakes |
| JobQueueRuns.DeadlockStep | app/nitris/job_queue.py:388-408 | a step frees a retry that awaits itself exactly if it cancels that retry's own future |
| JobQueueRuns.DeadlockIsForever | app/nitris/job_queue.py:388-408 | on every run until its own future is cancelled, whatever else is, such a retry stays as it is and no job carries its future |
| JobQueueRuns.DeadlockAttracts | app/nitris/job_queue.py:212-217 | on every run that cancels no future of its key, every request for the key that is not turned away joins it |
| JobLanes.JobBoard.Put | app/nitris/job_queue.py:234-239 | the job goes to the lane of its priority and the event is set |
| JobLanes.JobBoard.LookForJob | app/nitris/job_queue.py:253-273 | a shared worker takes a least interactive job, else a least background job, else clears the event |
| JobLanes.GetNowait | app/nitris/job_queue.py:42-50 | a priority queue gives a job that no other goes before, by priority and creation time |
| JobLanes.MissesNothing | app/nitris/job_queue.py:262-273 | on every run, a shared worker that sleeps and was not woken has nothing to do |
| JobLanes.EveryJobOnce | app/nitris/job_queue.py:130-276 | on every run each job put is in exactly one place: its lane, one worker, or done |
| JobLanes.ServedInOrder | app/nitris/job_queue.py:242-276 | on every run, which queued jobs a worker of each kind may serve ahead of which others |
| SessionPool.SessionTable.DropSession | app/nitris/session_pool.py:68-77 | removes the user's entry and says whether there was one |
| SessionPool.SessionTable.ReapIfDead | app/nitris/session_pool.py:144-151 | reaps an expired or closed entry only if its lock is free |
| SessionPool.SessionTable.GetOrCreate | app/nitris/session_pool.py:153-165 | the second lookup: an entry made meanwhile is used, a missing one is created |
| SessionPool.SessionTable.LoginCompleted | app/nitris/session_pool.py:170-175 | a completed login clears the need for one |
| SessionPool.SessionTable.WorkCompleted | app/nitris/session_pool.py:186-187 | a successful run extends the lifetime and frees the lock |
| SessionRuns.AlwaysSound | app/nitris/session_pool.py:120-187 | over every run, locks are consistent, every entry completes at most one login, and `work` runs only after it |
| SessionRuns.HonestStep | app/nitris/session_pool.py:106-117 | a step keeps every queued or working job at its user's pooled entry exactly if it does not drop a busy user |
| SessionRuns.OneJobPerUser | app/nitris/session_pool.py:167-187 | until a busy user is dropped, the lock holder's entry is the pooled one and a user has one job past the lock |
| SessionRuns.DroppedEntrySplitsUser | app/nitris/session_pool.py:177-182 | for every configuration, the run in which a session that expires in `work` drops an entry with a queue and two jobs of one user work at once |
| SessionTimes.ArriveIs | app/nitris/session_pool.py:138-165 | an arriving job drops its user's entry exactly if that has expired or its client is closed, and its lock is free; it reuses any other, and makes a missing one, good for a lifetime and without a login, once there is room |
| SessionTimes.MakingRoomIs | app/nitris/session_pool.py:106-117 | while the pool is full the next candidate is dropped, and then the user is looked up again |
| SessionTimes.EntryStepIs | app/nitris/session_pool.py:167-187 | the stretches at an entry: a login exactly if the entry needs one, a lifetime more after the work, and a fault that drops what the pool has for the user with the lock still held |
| SessionTimes.ExpiresAfterRenewal | app/nitris/session_pool.py:186-187 | on every run an entry expires one lifetime after its creation or the last work done at it |
| Inbox.InboxStore.InsertMessage | app/workers/sync_worker.py:241-310 | a new row, header-only for postback tokens, and its announcement unless silent |
| Inbox.InboxStore.RefreshMessage | app/workers/sync_worker.py:311-347 | token, edited subject with its invalidations and event, or a silent time correction |
| Inbox.InboxStore.PersistInboxSync | app/workers/sync_worker.py:168-347 | the whole transaction, with the baseline decided under the lock and everything undone on a duplicate |
| Inbox.AbortsIffNewTwice | app/db/models.py:290 | a transaction rolls back exactly if a portal id new to the inbox was scraped twice |
| Inbox.DedupeHeaders | app/nitris/parser.py:749-762 | keeps, in order, exactly the headers whose portal id has not occurred before |
| Inbox.TransactionGrows | app/workers/sync_worker.py:237-347 | in one transaction a row that came with it is announced, by its sender and subject, exactly if the sync is loud and the row not header-only; nothing else is announced and nothing is lost |
| Inbox.TransactionMirrors | app/workers/sync_worker.py:237-347 | over distinct ids the transaction commits, every scraped header is mirrored by its row field by field, an edited notice dropping body, attachment, cached file, fetch time and read mark, and all other rows are as they were |
| Inbox.NewcomersAreAnnounced | app/workers/sync_worker.py:211-310 | a sync that commits announces a message new to the inbox exactly if the inbox was not empty, no baseline was asked for, and the message is not header-only; one that does not commit changes nothing |
| Inbox.UpdatesReportEdits | app/workers/sync_worker.py:323-342 | every report of an edit carries the stored sender and the subject of a header of that message; ids and senders of stored messages stand |
| Inbox.FirstPopulationIsSilent | app/workers/sync_worker.py:211-235 | over any sequence of transactions and retention sweeps, every announcement is of a message inserted by a transaction that found the inbox non-empty and was not a baseline |
| Inbox.AnnouncedOnce | app/workers/sync_worker.py:290-306 | a message is announced at most once over the whole run, whatever is purged |
| Inbox.SecondReportNeedsPurge | app/db/repositories/event_repository.py:35-58 | an event of a kind for a message is created again only after a sweep removed the first one |
| Inbox.PurgedEditIsReportedAgain | app/db/repositories/event_repository.py:71-95 | a run in which an edit is reported, swept, and reported again |
| Inbox.EditReportedIff | app/workers/sync_worker.py:323-342 | a committed transaction, loud or silent, reports an edit of a stored message exactly if some header changes its subject and no such report is stored |
| Timetable.PlaceRow | app/nitris/parser.py:269-305 | in place: spanned columns pre-filled, then the row's cells in the free columns |
| Timetable.Decrement | app/nitris/parser.py:307-317 | every span loses a row and those at zero expire |
| Timetable.AlignRow | app/nitris/parser.py:269-321 | one row: the aligned array, and what spans below it |
| Timetable.RowRefines | app/nitris/parser.py:257-321 | the array shows exactly the cells the layout has covering that row, and the map tracks the layout |
| Timetable.ParseTimetable | app/nitris/parser.py:236-345 | the slots are those of the declarative layout of the accepted rows, or the three errors |
| Timetable.LayoutIsUnique | app/nitris/parser.py:253-321 | the rows determine the layout |
| Timetable.PlacedUnlessFull | app/nitris/parser.py:281-289 | the k-th cell of a row takes the k-th uncovered column, and is dropped exactly if there are no more than k of them |
| Timetable.SlotsInOrder | app/nitris/parser.py:323-338 | slots come out once per row and column, in order, exactly for the places that show something, with the row's day, the column's number from one and its times |
| Timetable.AcceptedIs | app/nitris/parser.py:257-268 | a row is accepted exactly if it has cells and the first names one of the seven weekdays, with the number of that day from Monday on |
| Timetable.AcceptedInOrder | app/nitris/parser.py:257-268 | the rows of the layout are the accepted ones, in order |
| StableSort.Sort | app/services/now_next_service.py:122-124 | a stable sort: every position once, by key and then by position |
| StableSort.SortedStays | app/nitris/holidays_parser.py:255-263 | a list in order is left as it is |
| NowNext.GroupByDay | app/services/now_next_service.py:106-120 | every entry in the list of its weekday, in stored order |
| NowNext.PauseIs | app/services/now_next_service.py:139-157 | a slot is a pause exactly if it is marked as a break or its subject contains the word lunch in any case |
| NowNext.FindCurrent | app/services/now_next_service.py:126-143 | the first running entry of today by start and stored order; a pause gives no class |
| NowNext.FindNext | app/services/now_next_service.py:145-181 | the least occurrence by day offset, start and stored order, with its offset and minutes |
| NowNext.ResolveNowAndNext | app/services/now_next_service.py:68-206 | the whole answer, with the meaning of every flag |
| NowNext.AnswerIsUnique | app/services/now_next_service.py:126-181 | entries and time determine the running slot and the next class |
| NowNext.NothingIsNearer | app/services/now_next_service.py:160-178 | the minutes are the exact floor of a positive distance, minimal over all occurrences |
| NowNext.MinutesAre | app/services/now_next_service.py:160-178 | in microseconds: the whole minutes until a start later than now, and no occurrence within the lookahead starts earlier |
| NowNext.NoNextIff | app/services/now_next_service.py:150-181 | there is no next class exactly if every class is out of the lookahead; with 7 days, exactly if all are today and have started |
| NowNext.GraceMustNotWrap | app/services/now_next_service.py:131-138 | a slot is found throughout its time exactly if its graced end does not pass midnight |
| Seating.ReadBack | app/services/exam_seating_service.py:557-566 | reading the serialised grid gives the grid back, in order, with distinct keys |
| Seating.KeyParses | app/services/exam_seating_service.py:519 | "r,c" is read back as (r, c) |
| SeatGrid.SheetMatches | app/nitris/exam_seating_parser.py:222-233 | the filled grid has for every place exactly the roll number of the last seat cell of that place, and no other place |
| Seating.FillGrid | app/nitris/exam_seating_parser.py:206-233 | the first row with labels is the header, and the grid is that of the labelled cells with a roll number in the numbered rows below it; places are distinct and rolls stripped and real |
| Seating.EntryIsFromCell | app/nitris/exam_seating_parser.py:206-233 | an entry's row is its cell's row number, its column the label above it, its roll number the stripped text of the cell, which is no placeholder |
| Seating.ParseRoom | app/nitris/exam_seating_parser.py:206-275 | the live view of that grid, and the error exactly if no cell holds a roll number |
| Seating.ViewFromCachedGrid | app/services/exam_seating_service.py:557-601 | the view of whatever grid the cached keys give |
| Seating.AroundIs | app/services/exam_seating_service.py:577-590 | left and right are whoever sits in the columns beside, front and behind in the rows before and after, if anybody does |
| Seating.SameRoll | app/services/exam_seating_service.py:572-577 | roll numbers are compared without the white space around them and without case |
| Words.StripIs | app/services/exam_seating_service.py:572-577 | stripping takes the white space off both ends and nothing else |
| Seating.FetchRoomLayout | app/services/exam_seating_service.py:511-540 | the answer computed from the serialised grid is the view computed while parsing |
| Seating.CachedEqualsLive | app/services/exam_seating_service.py:557-601 | for every grid and roll number the cached view is the live view |
| Holidays.ParseHolidayCells | app/nitris/holidays_parser.py:214-264 | the marks depend on the days seen before, as stated without the two flags, and the result is a stable sort |
| Holidays.MarkIsExact | app/nitris/holidays_parser.py:209-245 | on a displayed month a cell is marked trailing exactly if it is not of the month |
| Holidays.SortIsIdentity | app/nitris/holidays_parser.py:255-264 | on a displayed month the final sort changes nothing |
| Holidays.ListedAre | app/nitris/holidays_parser.py:214-264 | one entry for each cell with a day and a title, with that day, title and displayed month; the previous month first, the next one last, by day in between, equal ones as displayed |
| Holidays.LabelReadsBack | app/services/holidays_service.py:459-470 | a label made for a month is read back as that month |
| Holidays.CalendarNames | app/services/holidays_service.py:432-470 | the label of the m-th month is its calendar name, a space and the year, and is read as that month |
| Holidays.HeadingPointsTo | app/services/holidays_service.py:449-456 | the walker is told to stop exactly at the target and otherwise to step towards it |
| Holidays.TargetIsNeighbour | app/services/holidays_service.py:432-446 | the target label is that of the month before or after |
| Holidays.WalkToMonth | app/services/holidays_service.py:322-340 | every step brings the walk one month nearer, it stops at the target, after 24 steps, or where the portal offers no link, and it reaches the target exactly if that is in reach |
| Holidays.WalkReachesIff | app/services/holidays_service.py:330-340 | a walk that stopped is at its target exactly if the target is within 24 months and every page on the way offers the link |
| Truncation.TruncationIsSafe | app/utils.py:50-69 | the result is the escape of the longest prefix that fits, without trailing white space, and dots; at most limit + 3 characters |
| Truncation.KeepsWholeEntities | app/utils.py:63-67 | the cut keeps the escape of a prefix and never part of an entity |
| Truncation.EntityTable | app/utils.py:50-54 | exactly five characters are escaped, each by its own entity |
| Attachments.AttachmentService.SendCached | app/services/attachment_service.py:604-664 | the send loop makes exactly the sends of its specification, of this file id, and the user gets one file exactly if it ends delivered |
| Attachments.SendsAreBounded | app/services/attachment_service.py:604-664 | at least one send, and at most the flood budget plus the delivery budget |
| Attachments.SendLoopIs | app/services/attachment_service.py:604-664 | the sends before the last are floods and other errors, each kind within its own budget; the last is of another kind or one for which no budget is left, and decides the ending |
| Attachments.BoundIsMet | app/services/attachment_service.py:604-664 | a chat that rate-limits and then fails takes every send the budgets allow |
| Attachments.AttachmentService.DeliverCached | app/services/attachment_service.py:586-664 | one send loop, whose ending is the answer, with neither claim nor download; and exactly if the file id is rejected and may be recovered, one claim after it |
| Attachments.AttachmentService.ClaimOrWaitAndDeliver | app/services/attachment_service.py:261-291 | one claim: won, and then exactly one acquisition, or lost, and then a poll loop and no download |
| Attachments.AttachmentService.AcquireAndDeliver | app/services/attachment_service.py:321-384 | one download, an upload exactly if it gave bytes, one mark of exactly what they gave, and a send loop exactly if the file went to the storage channel |
| Attachments.AttachmentService.WaitAndDeliver | app/services/attachment_service.py:542-584 | no reading before the last is decisive; a decisive one has its own answer, and without one the row is reported in progress, at the deadline and not before; nothing is downloaded |
| Attachments.PollsAreBounded | app/services/attachment_service.py:550-560 | a poll loop makes at most timeout / interval + 2 reads |
| Attachments.AttachmentService.Deliver | app/services/attachment_service.py:131-198 | an available row with its file is sent, and a recovery and a claim follow exactly if the file id is rejected; absent and permanently failed rows are answered at once; any other row is claimed exactly once; within one download, one recovery and two send budgets, and with one file received exactly if the result says delivered |
| Attachments.RecoveredDid | app/services/attachment_service.py:586-664 | a cached delivery makes at least one send; if it ends delivered there is no claim and no download; a recovery and a claim follow exactly if the file id is rejected |
| Attachments.ClaimedDid | app/services/attachment_service.py:261-291 | one send budget, one download exactly if the claim is won, every claim won marked, and in progress only after a lost claim and the whole timeout |
| DeliverySlots.AlwaysConserved | app/services/qpaper_service.py:148-149 | for both services, every permit of both semaphores is free or held by exactly one holder, on every run |
| DeliverySlots.SendsJammedIff | app/services/qpaper_service.py:220-443 | no run without a cancellation ever frees a delivery permit again exactly if none is free and every holder of one asks for another, or neither kind is free and every holder of either awaits one |
| DeliverySlots.SlotsJammedIff | app/services/qpaper_service.py:363-443 | the same for the acquisition permits |
| DeliverySlots.JammedByRecoveries | app/services/attachment_service.py:604-664 | of attachments, a jam of the deliveries means that every delivery permit is kept by a recovery |
| DeliverySlots.JamIsForever | app/services/attachment_service.py:604-664 | a jam of either semaphore lasts until a cancellation |
| DeliverySlots.StaleFilesJam | app/services/qpaper_service.py:253-292 | for every number of permits, that many requests whose stored file ids are rejected jam the deliveries, and both semaphores if there are no more acquisition than delivery permits |

## Left out

- Portal and Telegram: HTTP, login wire format, HTML parsing and message texts; the models start from cells, rows, days and outcomes.
- Gateway metrics: latency, totals, `active_logins`, and `acquire(is_login=True)`, which paces while it holds its slot.
- JobQueueRuns.ChainsInShape: a worker may begin any queued job, so the result holds for each order the lanes allow; starting and stopping the workers is not modelled.
- Job handlers without a registration, and the mutation of a job's payload; a retry carries its attempt number.
- Dispatch cycle: database errors inside a cycle, and rows skipped because another dispatcher has them locked; the outbox model covers crashes, lost marks and several dispatchers for one event.
- Flood-wait retries inside one event send, which end in one of the outcomes of the send.
- Leases: `acquired_by` is stored and cleared but never tested, as in the program; error texts, file sizes, hashes and heartbeats are not kept.
- Papers.QPaperService.ClaimOrWaitAndDeliver: a waiter may lose claims to rivals without end; the model lets rivals win finitely often. The poll loop enters by its last reading, and the service serves one request; the permits of many requests are those of `DeliverySlots`.
- Question papers: pre-warming, which reaches the shared rows only by the lease steps.
- Metadata: the list of touched rows that the writer returns.
- Session pool: quarantine after a failed login (the model lets a later login of the user succeed), the closing of clients, and the drop of all sessions at shutdown; eviction lists its candidates in any order.
- Inbox: the prepare phase, detail fetching, and the body snippet of an event; one user's rows are modelled, other users only by the row ids they take. A sweep may remove any events, not only terminal and old ones.
- Timetable: finding the table and reading a cell's text and title; a cell arrives as what it says.
- Text: white space and letter case are those of ASCII, and a number is decimal digits with an optional sign.
- Holidays: the walk is stated for four-digit years and canonical month headings.
- Attachments: creation of the cache row, and the two attempts inside one upload, which end as stored, sent to the user, or failed.
- Disk caches, encryption, configuration, scheduling, dashboards and administration.
