# Dashboard backend: verified model

This project models the stateful core of the dashboard backend in Dafny and proves what its
protocols promise. `dafny verify dfyconfig.toml` checks everything.

## What is modelled

**Report runs.** `ReportTables` holds the rows, `ReportSteps`, `NotificationSteps` and `Admission`
say as functions what each transaction does to them, and the classes in `ReportStore` and
`NotificationStore` are the stores themselves, with the tables as fields and every method proved
to compute its function. `ReportActions` turns the transactions into a transition system in which
any caller may make any call with any arguments at any time. Invariants (`ReportInvariants`) are
kept by every step, and the results about whole histories follow: caps, fencing, publication
(`ReportTheorems`), tenant cooldown and the half-open circuit (`Cooldown`), closing of occurrences (`Closing`), queue bounds (`QueueLimits`), failure counters (`Circuits`),
queue positions (`QueuePosition`), generations that follow their runs (`Publication`) and reading a
published one (`Overview`). What each call decides and leaves is stated again in terms of the rows
alone, without the functions it is computed by: requests (`Requests`), claims (`Readiness`),
recovery (`Recoveries`), scheduling, cancelling and archiving (`Changes`).

**Workers.** `Lanes` adds the report worker's lanes with what they remember in memory: the attempt
number they read when they claimed, possibly stale, under a worker name that several lanes share.
Lanes may stop at any point. `Expiry` follows runs whose lease ran out or whose outcome stayed
unknown. `Pipeline` adds notification workers, each deciding by the snapshot
(`NotificationWork`) it loaded, with permissions that may change between any two steps.
`Outcomes` says how a run ends for each outcome of its queries, `NotificationAnswers` what a
notification worker answers for the reports it finds, and `Dispatch` what then becomes of the occurrence.

**Deliveries.** `DeliveryOutbox` and `DeliveryStore` model claims, retries, the monthly count and
the final status of a notification run, `Couriers` says what becomes of each delivery, and
`Deliveries` joins them with the pipeline.

**Heavy reports.** `Manifest`, `ChunkProgress`, `ChunkWire`, `StockChunks` and `ArChunks` model the
split into chunks, the progress counter, and the merges; `Selections` says what a summary shows in
amounts only; `Ranking` and `Text` hold the order theory.

**Administration.** `RegistrySteps`, `RegistryStore` and `AccessRules` cover recipients,
invitations, permissions, schedules and tenants; `Administration` says when a call goes ahead.

**Calendar.** `Calendar`, `Periods`, `Occurrences`, `ScheduleInput` and `Trends`; `LocalDates` ties
periods and due times to the clock in Bangkok; `DueTimes` follows a schedule over its life, with
activations that overlap with edits, pauses and due steps.

## How to read it

- Times are integers in microseconds, dates are dates or day numbers, amounts are integers in
  their smallest unit (ten-thousandths for the chunk merges, since amounts have at most four decimals).
- A database transaction is one atomic step. A call whose guard fails leaves the tables as they
  are, which is what the rolled back transaction leaves. Uniqueness that the schema enforces is a
  guard of the insertion.
- Hashes (execution keys, generation keys, references) are represented by what is hashed.
- Results of queries, clocks, permissions read from other tables and the state of other tenants'
  connections are inputs of the steps that read them and range over all values.
- Administrative calls come after the input validation of their services, and a schedule call names
  the tenant of its schedule. The set of deprecated reports is an input, and the name of a schedule
  stands for its lower-case form, by which the schema tells names apart.
- The map from tenants to endpoint hosts is fixed. Asia/Bangkok is UTC+7 all year.
- Where a run fails, `claimed_by` stays on the row as it does in the table; only the lease goes.

## Where the code does not do what one might expect

- A half-open probe is never reserved. The branch is entered once `open_until` has passed
  (`internal/database/report_store.go:143`) and its update asks for `open_until` in the future
  (`internal/database/report_store.go:255`). `Admission.InteractiveAdmission` gives the exact
  condition, `Cooldown.ProbeRefused` a history, and `Cooldown.RefusedUntilComplete` the
  consequence: an interactive request is refused until some run of the tenant completes.
- Cancelling runs does not update generations, so a BUILDING generation may have only terminal
  runs. Completion and failure do: `Publication.GenerationsFollowRuns` excludes a BUILDING generation
  whose runs have all succeeded, or one of whose runs has failed, but not one with a cancelled run.
- A failure before the request counts against the host of the tenant. When the connection has been
  removed meanwhile there is no host, the transaction is rolled back
  (`internal/database/report_store.go:675`), and the run stays RUNNING until its lease has run out
  (`Outcomes.PreRequestFailure`).
- Summary trends lose the first month when the period is longer than 186 days and does not start
  on the first of a month: the SQL groups that month under a date before the period, which the
  aggregation drops. `Trends.TrendsAgree` gives the exact condition for given rows,
  `Trends.PeriodDecides` for a period and all rows, and `Trends.LongPeriodsNeedMonthStart` rows on
  which the two trends differ.
- An activation reads the schedule, computes its next run and stores it in separate transactions
  (`internal/schedule/service.go:305`), and the store checks no version. An edit in between makes a
  live schedule pass over its times (`DueTimes.EditDuringActivation`); a second activation can store
  a time that has already come due (`DueTimes.ActivatedTwice`), whose insertion the unique constraint
  on schedule and time refuses from then on, and which keeps polls that follow one another from any
  other schedule (`DueTimes.StuckBlocksAll`). A test send at exactly an upcoming time does the same.
  `DueTimes.CarefulIsExact` gives the exact condition.
- The comparison of a period that starts within its own length of the first day of year 0 prints a
  date that does not read back. `Periods.ComparisonReadsBack` gives the exact condition and
  `Periods.FirstDayHasNoComparison` an instance.
- All lanes of a process share one worker name, so fencing is per name. A lane that lost its run
  to recovery can start it after another lane of its process claimed it again; `Lanes` covers
  these interleavings, and the bound on executions holds in spite of them.

## Model

| member | source | states |
|---|---|---|
| Cooldown.CooldownAfterUnknown | internal/database/report_store.go:1479-1529 | after an unknown remote outcome, in every continuation with a clock that does not run backwards, no run of the tenant is claimed before open_until |
| Cooldown.CooldownAfterRecovery | internal/database/report_store.go:500-534 | the same for ten minutes after recovery has failed an expired RUNNING run, wherever in its batch |
| Cooldown.NoClaimWhileCooling | internal/database/report_store.go:357-364 | while a tenant is idle with an open circuit no call sequence claims one of its runs before the circuit expires |
| Cooldown.StepCools | internal/database/report_store.go:357-396 | no single call of any kind ends a cooldown early: only an active run of the tenant could, and there is none |
| Cooldown.OnlyCompleteCloses | internal/database/report_store.go:797-805 | the only call that sets a tenant's open_until back to null is the completion of one of its runs |
| Cooldown.RefusedUntilComplete | internal/database/report_store.go:129-148 | once open_until is set, an interactive request creates no run until a run of the tenant completes, however long ago it expired |
| Admission.InteractiveAdmission | internal/database/report_store.go:129-148 | an interactive request is admitted exactly when it would be without a circuit and open_until is null |
| Cooldown.ProbeRefused | internal/database/report_store.go:250-264 | a history that shows it: a run is lost, and an hour after its cooldown has ended, with nothing waiting, the next interactive request is refused |
| Admission.SameGeneration | internal/database/dashboard_generation.go:102-141 | two requests get one generation key exactly when tenant, data source version and the set of reports with periods agree, whatever their order |
| QueueLimits.QueueIsBounded | internal/database/report_store.go:150-250 | in every reachable state a tenant has at most ten open background runs, and no two open summary runs share an execution key |
| QueueLimits.LinkItemsWithin | internal/database/report_store.go:1068-1119 | a dashboard refresh starts runs only where there is no open run to share, and keeps both bounds |
| QueueLimits.EnqueueWithin | internal/database/report_store.go:48-267 | enqueueing keeps both bounds for every input |
| Circuits.TenantCircuit | internal/database/report_store.go:1440-1529 | in every reachable state, by what happened since the last completion, the tenant circuit counts the failures in the ten-minute window of the last one (an unknown outcome counts when it comes first), and open_until is the latest of the ends of unknown outcomes and fifteen minutes after a failure that was at least third in its window; such a failure replaces every end before it |
| Circuits.HostCircuit | internal/database/report_store.go:675-708 | in every reachable state the host circuit counts the failures since the last completion on the host, and opens for at least five minutes at the second in two minutes |
| ReportTheorems.CapsHold | internal/database/report_store.go:357-393 | in every reachable state at most one active run per tenant, G in all, max(1, G-1) that are not scheduled, and H per host |
| ReportInvariants.ClaimKeepsRuns | internal/database/report_store.go:350-443 | a claim adds one active run and keeps the one-per-tenant rule and every cap |
| ReportTheorems.TerminalForever | internal/database/report_store.go:313-348 | SUCCEEDED, FAILED and CANCELLED runs never change again under any calls |
| ReportTheorems.OneSideMayStep | internal/database/report_store.go:461-514 | at every instant exactly one of the holder and the recovery loop can move an active run |
| ReportTheorems.ForeignCallsChangeNothing | internal/database/report_store.go:544-723 | a worker call under another name or after the lease changes nothing at all |
| ReportTheorems.ClaimAllowsOneStart | internal/database/report_store.go:710-723 | in every stretch of every history the successful MarkRunning calls of a run are at most its claims plus one if it was claimed at the start |
| ReportTheorems.PublicationIsFinal | internal/database/dashboard_generation.go:28-94 | a PUBLISHED generation never changes, has all its total linked runs, and they stay SUCCEEDED |
| ReportTheorems.BuildingLeftOnce | internal/database/dashboard_generation.go:44-56 | a generation leaves BUILDING at most once |
| ReportTheorems.HeadsShowPublications | internal/database/dashboard_generation.go:78-92 | a head exists exactly when its key was published, shows a published generation of that key, and its version is the number of publications |
| ReportTheorems.BuildingIsBounded | internal/database/report_store.go:1014-1040 | at most one generation per key and two per tenant are BUILDING |
| Readiness.EligibleIsReady | internal/database/report_store.go:357-411 | a run may be claimed exactly when it is queued and due, tenant and host circuit are not open, its tenant is idle, every cap has room, and no schedule of its host is due within the guard window of a heavy unscheduled run |
| ReportTheorems.ClaimedMeans | internal/database/report_store.go:350-443 | in every history a run turns CLAIMED exactly by a claim that names it while those conditions hold, and its row is then leased with one attempt more |
| ReportStore.Store.FirstEligible | internal/database/report_store.go:357-411 | finds none exactly when no run is ready, and otherwise the ready run with the highest aged priority, then the tenant not claimed for longest, then the earliest |
| Requests.RequestMeans | internal/database/report_store.go:48-267 | from the rows alone: a request is a replay, joins a run, or creates one exactly when it is well-formed, welcome, repeats no call, finds its circuit never opened, nothing to share, room and no double; the new row in full |
| Requests.RefusalMeans | internal/database/report_store.go:48-267 | each refusal exactly when its condition is the first that applies |
| Requests.RequestLeaves | internal/database/report_store.go:48-267 | a created run is one more row; any other outcome changes nothing |
| Requests.RefreshMeans | internal/database/report_store.go:1014-1125 | a refresh starts exactly when allowed, with distinct reports and room; each report is linked in order to the first live run that computes it, or to a new one |
| Publication.GenerationsFollowRuns | internal/database/dashboard_generation.go:28-94 | after every history no BUILDING generation has all its runs SUCCEEDED or one FAILED, its counter is the number that succeeded, a published one has only succeeded runs, and a broken one has a failed or cancelled run |
| Publication.CompletionPublishes | internal/database/dashboard_generation.go:28-94 | the completion after which all runs of a BUILDING generation have succeeded leaves it PUBLISHED, shown by its head with the version one higher |
| Outcomes.DoneSucceeds | internal/worker/report_worker.go:94-152 | in every reachable world, queries that succeed leave the run SUCCEEDED for a day and close the circuits of tenant and host |
| Outcomes.UnknownFails | internal/worker/report_worker.go:94-152 | an unknown outcome leaves the run FAILED and the tenant circuit open for at least ten minutes |
| Outcomes.PreRequestFailure | internal/worker/report_worker.go:94-152 | a failure before the request leaves an interactive run in its first attempt waiting for thirty seconds and any other FAILED, and counts for the host; without a host nothing changes |
| Outcomes.RetryableFailure | internal/worker/report_worker.go:94-152 | a retryable failure that is no timeout, of a run that is not in the background and was tried less than three times, leaves it waiting for thirty seconds, then sixty |
| Outcomes.FinalFailure | internal/worker/report_worker.go:94-152 | every other failure leaves the run FAILED, and a connection failure counts for the tenant |
| Outcomes.TakeMeans | internal/worker/report_worker.go:94-110 | an idle lane takes exactly a run that is ready and holds it for three minutes |
| Outcomes.PhaseMeans | internal/database/report_store.go:559-584 | progress is recorded exactly forwards, by the worker that owns the running run |
| Outcomes.StartMeans | internal/database/report_store.go:710-723 | a lane starts exactly a CLAIMED run that its worker still owns, and lets go of any other |
| Recoveries.RecoveryMeans | internal/database/report_store.go:449-542 | after every history, whatever the batch and its order: overdue CLAIMED runs wait from when they waited before, overdue RUNNING ones are FAILED, exactly the collecting occurrences of the latter close and exactly what waited there is cancelled, and exactly their tenants' circuits open, for at least ten minutes |
| Changes.MaterializeMeans | internal/database/schedule_execution_store.go:204-263 | inserts one collecting occurrence with a link and a waiting run per report in order, or nothing when the time is taken |
| Changes.ArchiveMeans | internal/database/tenant_store.go:298-383 | cancels exactly the waiting runs of the tenant |
| ReportInvariants.RecountedOk | internal/database/dashboard_generation.go:29-56 | a recount publishes a generation only when every one of its runs has succeeded |
| ReportInvariants.PublishCounts | internal/database/dashboard_generation.go:78-92 | publishing raises the version of each head by the number of its new publications |
| ReportActions.ApplyKeeps | internal/database/report_store.go:350-534 | every call keeps the invariants of runs, occurrences and generations, and only a claim makes a run active |
| Closing.FailedRunClosesOccurrence | internal/database/report_store.go:1534-1565 | whatever step turns an active run of a collecting occurrence FAILED closes the occurrence with every linked run terminal, and so it stays |
| Closing.FailureCloses | internal/database/report_store.go:527-536 | the shared failure path closes the occurrence of the run and leaves no linked run open |
| Closing.OthersFailNothing | internal/database/report_store.go:559-623 | no call outside the four failure paths turns an active run FAILED |
| Lanes.BoundedExecution | internal/worker/report_worker.go:94-152 | in every interleaving of lanes that share names, stop and lose leases, a run is started at most three times and a background run at most once |
| Expiry.ExpiredNeverRunsAgain | internal/database/report_store.go:486-514 | in every history a run that is RUNNING when its lease runs out is from then on RUNNING or FAILED, and no later call of any kind queues, claims or starts it, whether or not a recovery has selected it |
| Expiry.UnknownNeverRunsAgain | internal/worker/report_worker.go:126-133 | in every history of lanes a run whose outcome a lane reported as unknown is never queued, claimed or started again, whether the store accepted the report or refused it for the lost lease |
| Expiry.StepLeavesSpent | internal/database/report_store.go:461-723 | no single call at or after lease expiry moves such a run anywhere but to FAILED |
| Lanes.FailedNeverRuns | internal/worker/report_worker.go:126-133 | a run that has failed is never claimed or started again |
| Lanes.ExpiredRunningFails | internal/database/report_store.go:500-514 | a recovery batch fails every expired RUNNING run it has selected and requeues none |
| Lanes.NextKeeps | internal/worker/report_worker.go:94-152 | every event keeps what bounds execution: distinct attempts per lane, one executing lane per unfinished run, attempts used up by retries |
| QueuePosition.PositionsAreOneToN | internal/database/report_store.go:1584-1601 | the positions of a tenant's n waiting runs are exactly 1 to n, each taken once |
| QueuePosition.PositionsFollowClaims | internal/database/report_store.go:407-409 | of two waiting runs of a tenant the one shown first is the one Claim prefers |
| QueuePosition.AgeingIsMonotone | internal/database/report_store.go:407 | waiting never costs priority |
| QueuePosition.AgeingStopsBelowSchedules | internal/database/report_store.go:407 | a run is below 100 before ageing exactly when it is after, so none reaches the priority of schedules |
| QueuePosition.AgeingReachesTop | internal/database/report_store.go:407 | a run reaches 99 exactly when it has waited ten minutes for each missing point |
| Overview.LoadPublished | internal/database/generation_snapshot_store.go:102-178 | a published generation is returned exactly when all its reports are readable, complete and in order or empty when expired, with the worst freshness |
| Overview.WorstIsWorst | internal/database/generation_snapshot_store.go:156-160 | the status is fresh exactly when every report is and expired exactly when one is |
| Overview.PublishedHeadReads | internal/database/generation_snapshot_store.go:46-57 | every report of every generation a head shows is a succeeded summary run, so it is readable exactly while its versions are in force |
| Overview.ReadHead | internal/database/generation_snapshot_store.go:46-178 | in every reachable state what a head shows is returned exactly when all its runs have current versions and decode: all reports in order with the worst freshness |
| Overview.AlwaysSummaries | internal/database/report_store.go:1068-1119 | in every reachable state generations link summary runs only |
| ReportStore.Store.Claim | internal/database/report_store.go:350-443 | claims some run exactly when one is ready, then the ready run before which no other goes by aged priority, last claim and waiting time, and states its row and all tables afterwards |
| ReportStore.Store.SelectExpired | internal/database/report_store.go:461-467 | selects the first hundred active runs whose leases have run out, in order of expiry |
| ReportStore.Store.RecoverExpiredLeases | internal/database/report_store.go:449-542 | recovers exactly that batch one by one and counts requeued and failed runs |
| ReportStore.Store.UpdateGenerations | internal/database/dashboard_generation.go:28-94 | recounts the affected generations and publishes heads as the specification says |
| ReportStore.Store.FailOccurrence | internal/database/report_store.go:1534-1565 | closes the collecting occurrence of a failed run and cancels its queued siblings |
| ReportStore.Store.Enqueue | internal/database/report_store.go:48-267 | gives the outcome of the checks in their order, and the new, replayed or joined run |
| ReportStore.Store.CreateDashboardRefresh | internal/database/report_store.go:1002-1126 | joins the generation being built, or starts one with a run shared or inserted for each report |
| ReportStore.Store.FindCoalesced | internal/database/report_store.go:1084-1090 | finds the first open summary run of an execution key in queue order |
| ReportStore.Store.MarkRunning | internal/database/report_store.go:710-723 | starts a claimed run under its lease, or changes nothing |
| ReportStore.Store.ExtendLease | internal/database/report_store.go:544-557 | extends the lease of the holder, or changes nothing |
| ReportStore.Store.UpdateProgress | internal/database/report_store.go:559-584 | moves the phase of a running run forwards only |
| ReportStore.Store.Retry | internal/database/report_store.go:586-603 | puts the holder's run back into the queue |
| ReportStore.Store.RetryPreRequestFailure | internal/database/report_store.go:605-634 | puts the run back and counts a failure of the host, or rolls back without a connection |
| ReportStore.Store.FailPreRequestFailure | internal/database/report_store.go:636-673 | fails the run, counts a failure of the host, closes the occurrence and recounts |
| ReportStore.Store.Fail | internal/database/report_store.go:1423-1474 | fails the run, counts connection failures of the tenant, closes the occurrence and recounts |
| ReportStore.Store.FailRemoteUnknown | internal/database/report_store.go:1479-1529 | fails the run and opens the tenant circuit in one transaction |
| ReportStore.Store.Complete | internal/database/report_store.go:725-827 | completes a running run, resets its circuits and recounts |
| ReportStore.Store.Cancel | internal/database/report_store.go:313-348 | cancels a queued run; a cancelled one is a replay, any other is refused |
| ReportStore.Store.Materialize | internal/database/schedule_execution_store.go:219-257 | inserts the occurrence with one linked queued run per report |
| ReportStore.Store.CancelTenantQueue | internal/database/tenant_store.go:332-337 | archiving a tenant cancels its queued runs |
| NotificationStore.Claim | internal/database/notification_store.go:27-62 | claims the next waiting occurrence in order and loads its work |
| NotificationStore.Publish | internal/database/notification_store.go:94-181 | inserts exactly the deliveries still entitled and moves the occurrence to SENDING, or fails it when none is left |
| NotificationStore.Defer | internal/database/notification_store.go:64-77 | releases a collecting occurrence for later |
| NotificationStore.Fail | internal/database/notification_store.go:79-92 | closes a collecting occurrence |
| NotificationWork.LoadWork | internal/database/notification_store.go:183-304 | pending, partial, results and targets as they follow from the linked runs |
| NotificationWork.TargetsAreComplete | internal/database/notification_store.go:265-283 | a target is a recipient of the schedule permitted for every linked report, all of them usable, and occurs once |
| NotificationWork.CheckContext | internal/notification/worker.go:164-201 | accepts results exactly when their dashboards match and their periods are equal or each the effective one |
| NotificationWork.Decide | internal/notification/worker.go:91-162 | the decision order of the notification worker |
| NotificationWork.SentCardsAreComplete | internal/notification/worker.go:117-152 | when the worker sends anything, every card covers all linked reports, which all are usable |
| NotificationAnswers.ProcessOne | internal/notification/worker.go:91-162 | from links, runs and grants alone: put off exactly while a report is awaited and none is gone, send exactly when all reports are there and in context, somebody may see all of them and the cards render, then to exactly those who may, and give up in every other case |
| Dispatch.PickMeans | internal/database/notification_store.go:27-62 | a desk takes exactly an occurrence that is collecting, due and not leased, for a minute |
| Dispatch.WaitingIsPutOff | internal/notification/worker.go:91-162 | while reports are awaited and none is gone the occurrence is put off for five seconds |
| Dispatch.UnsendableIsClosed | internal/notification/worker.go:91-162 | neither awaited nor sendable: the occurrence closes and nothing is delivered |
| Dispatch.SendableIsDelivered | internal/database/notification_store.go:94-181 | one delivery of all reports for each recipient who could see everything when the work was loaded and still can; the occurrence is SENDING then, and closed when nobody is left |
| Pipeline.AllOrNothing | internal/database/notification_store.go:94-181 | in every reachable state a delivery covers all linked reports, all SUCCEEDED and permitted to its recipient when published, and no recipient has a second one |
| Pipeline.PublishedAtMostOnce | internal/database/notification_store.go:102-107 | an occurrence that was published or has failed never gets another delivery |
| Pipeline.PublishingLeavesCollecting | internal/database/notification_store.go:165-176 | deliveries are inserted only from COLLECTING, and leave the occurrence SENDING |
| Pipeline.PipeNextKeeps | internal/notification/worker.go:91-162 | every event of report workers, notification workers and other callers keeps the delivery rules |
| DeliveryOutbox.OutboxAlwaysValid | internal/database/delivery_store.go:188-220 | after every history the monthly counts add up to the accepted deliveries, and a run has left SENDING exactly when none of its deliveries is open |
| DeliveryOutbox.QuotaIsConserved | internal/database/delivery_store.go:93-101 | the counts of all months add up to the number of accepted deliveries |
| DeliveryOutbox.OutcomeMeans | internal/database/delivery_store.go:201-214 | failed means all deliveries failed, completed all accepted with nothing missing, whatever the order |
| DeliveryOutbox.ClosedDeliveryIsFinal | internal/database/delivery_store.go:170-186 | an accepted or failed delivery never changes again |
| DeliveryOutbox.AtMostFourRetries | internal/delivery/worker.go:54-83 | a delivery is put back at most four times, whatever its couriers do |
| DeliveryOutbox.RetryDelays | internal/delivery/worker.go:85-94 | half a minute doubling per attempt, fifteen minutes from the sixth on |
| DeliveryOutbox.NextKeeps | internal/database/delivery_store.go:23-168 | every event keeps quota, run status and the use of attempts |
| Couriers.PickMeans | internal/database/delivery_store.go:23-72 | an idle courier takes exactly a delivery that is available and counts one attempt |
| Couriers.AcceptedMeans | internal/delivery/worker.go:54-83 | in every reachable outbox an accepted message makes the delivery ACCEPTED, adds one to the UTC month of the attempt, and ends its run when it was the last |
| Couriers.RetriedMeans | internal/delivery/worker.go:54-95 | a retryable push before the fifth attempt puts the delivery back until the time asked for, or else for 30, 60, 120 or 240 seconds |
| Couriers.DeadMeans | internal/delivery/worker.go:54-83 | nobody to send to, a refusal, or a fifth failure gives the delivery up and ends its run when it was the last |
| Couriers.SettledTooLate | internal/database/delivery_store.go:170-186 | a courier that has lost the delivery changes nothing |
| Couriers.OutcomeIsEnd | internal/database/delivery_store.go:188-220 | a run without open deliveries is failed when none was accepted and one failed, partially failed when both occur or reports were missing, else completed |
| Deliveries.SendingEndsWithDeliveries | internal/database/delivery_store.go:188-220 | in every history of report workers, notification workers and couriers together, an occurrence with deliveries is SENDING exactly while one of the deliveries published for it is open, and then has the status their outcomes determine |
| Deliveries.UpstreamPublishes | internal/database/notification_store.go:94-181 | new deliveries all belong to one occurrence, which goes from COLLECTING to SENDING, and no other occurrence changes |
| Deliveries.ReportsSendNothing | internal/database/report_store.go:1534-1565 | no call of the report store starts or ends SENDING |
| DeliveryStore.Store.Claim | internal/database/delivery_store.go:23-72 | takes the first claimable delivery and counts the attempt |
| DeliveryStore.Store.Accept | internal/database/delivery_store.go:74-109 | accepts a locked delivery, counts its month and finalises the run |
| DeliveryStore.Store.Retry | internal/database/delivery_store.go:111-140 | puts a locked delivery back |
| DeliveryStore.Store.Fail | internal/database/delivery_store.go:142-168 | gives a locked delivery up and finalises the run |
| DeliveryStore.Store.Finalize | internal/database/delivery_store.go:188-220 | sets the status of a run without open deliveries |
| Manifest.ChunkKeys | internal/report/heavy_chunk.go:263-279 | the sorted keys without repetition, or an error exactly when one is too long |
| Manifest.BuildManifests | internal/worker/report_worker.go:309-325 | numbered consecutive chunks that make up the key list |
| Manifest.SplitIsPartition | internal/worker/report_worker.go:313-325 | the chunks are not empty, at most chunkSize long, and their concatenation is the key list |
| Manifest.SplitCount | internal/worker/report_worker.go:312 | their number is the rounded-up quotient |
| Manifest.SplitKeySets | internal/worker/report_worker.go:313-325 | the chunks own disjoint keys and together every key |
| ChunkProgress.CounterIsExact | internal/database/report_chunk_store.go:30-139 | whoever calls what and when, the counter is the number of finished chunks and at most the total |
| ChunkProgress.ChunkStore.PrepareChunks | internal/database/report_chunk_store.go:30-65 | replaces the chunk rows of a running run and resets the counter |
| ChunkProgress.ChunkStore.CompleteChunk | internal/database/report_chunk_store.go:84-121 | finishes a working chunk and counts it |
| ChunkProgress.ChunkStore.ExecuteChunked | internal/worker/report_worker.go:326-380 | the chunk loop reaches the merge exactly when every chunk is answered and the worker holds the run in every call, and then with the counter at the total and every chunk finished |
| ChunkWire.AttachReadsBack | internal/report/heavy_chunk.go:238-248 | attached metrics and rows read back as they were |
| StockChunks.MergeStockSummary | internal/report/heavy_chunk.go:104-149 | merges chunks into the rows in the top ten of either ranking with the summed metrics, or fails when a chunk has none |
| StockChunks.ChunkedStockIsExact | internal/report/heavy_chunk.go:104-149 | for every split into disjoint chunks the merged summary has the rows, metrics and dashboard of the unchunked one |
| StockChunks.ChunkedStockRunIsExact | internal/worker/report_worker.go:305-398 | the same for the chunks the worker cuts from the manifest |
| StockChunks.SelectionFitsLimit | internal/report/summary_query_plan.go:158-181 | the selection of the two top tens never exceeds its limit of twenty rows |
| StockChunks.WinnersAreTopTen | internal/report/heavy_chunk.go:113-141 | the merge keeps exactly the two top tens of the rows it sees |
| ArChunks.MergeArSummary | internal/report/heavy_chunk.go:151-197 | regroups all rows per customer, ranks by absolute net and keeps ten, or fails when a chunk has no metrics |
| ArChunks.ChunkedArIsExact | internal/report/heavy_chunk.go:151-197 | for every split of the customers the merge gives the overall top ten with full debit and credit, the totals and the dashboard of the unchunked summary |
| ArChunks.ChunkedArRunIsExact | internal/worker/report_worker.go:305-398 | the same for the chunks the worker cuts from the manifest |
| ArChunks.Regroup | internal/report/heavy_chunk.go:160-176 | one customer per code with summed debit and credit and the name met first |
| ArChunks.OwnedCustomers | internal/report/summary_query_plan.go:205-212 | a chunk sees exactly its own customers, with their full totals |
| Selections.StockInAmounts | internal/report/heavy_chunk.go:104-149 | in amounts and codes only: for every split an item is in the merged rows exactly when fewer than ten items have a larger absolute balance, or fewer than ten a larger turnover, ties going to the smaller code; the unchunked summary has the same rows |
| Selections.StockTotalsInAmounts | internal/report/heavy_chunk.go:199-236 | the merged totals are those of all items |
| Selections.StockWorthBoard | internal/report/dashboard_builder.go:402-455 | the dashboard lists the ten rows in stock that are worth most, each at its place |
| Selections.StockMovementBoard | internal/report/dashboard_builder.go:481-512 | likewise the ten rows most turned over |
| Selections.CustomersInAmounts | internal/report/heavy_chunk.go:151-197 | for every split the merged rows are the debit and credit row, with everything booked, of exactly the customers than whom fewer than ten have a larger absolute net |
| Selections.CustomerTotalsInAmounts | internal/report/heavy_chunk.go:151-197 | the merged metrics count the customers and add up everything booked |
| Selections.CustomerBoard | internal/report/dashboard_builder.go:535-584 | the ranking has every such customer at the place of its absolute net |
| Ranking.TopKOfKept | internal/report/heavy_chunk.go:250-261 | the top k of a part that holds the top k is the top k of the whole |
| AccessRules.RulesHold | internal/database/recipient_store.go:327-592 | after every history of changes each recipient of each live schedule has an active membership and identity and every permission, and no two schedules of a tenant share a name |
| AccessRules.DuePausesOnlyForTenant | internal/database/schedule_execution_store.go:173-202 | a due schedule is only ever paused for TENANT_INACTIVE or SML_NOT_READY |
| AccessRules.MakeKeeps | internal/database/schedule_store.go:167-402 | each of the fourteen changes keeps the rules |
| AccessRules.MergeKeeps | internal/database/recipient_store.go:527-557 | merging an invited recipient into a known identity keeps the rules |
| AccessRules.ReplacePermissionsKeeps | internal/database/recipient_store.go:327-422 | replacing permissions never takes a report from a recipient of a live schedule |
| AccessRules.RevokeKeeps | internal/database/recipient_store.go:424-500 | revoking never hits a recipient of a live schedule and leaves no open invitation behind |
| AccessRules.ArchiveTenantKeeps | internal/database/tenant_store.go:298-383 | archiving a tenant keeps the rules for all other tenants |
| Administration.RedeemMeans | internal/database/recipient_store.go:502-592 | from the rows alone: an open invitation gives seat and permissions to the current row of the LINE identity, or binds it to the invited row when no other has it; otherwise nothing changes |
| Administration.ReplaceMeans | internal/database/recipient_store.go:327-422 | permissions are replaced exactly for the version read, when nothing deprecated is new and every report a live schedule sends is kept; those of others stay |
| Administration.RevokeMeans | internal/database/recipient_store.go:424-500 | a seat goes exactly when no live schedule sends to it, with its permissions and open invitations, and nothing else does |
| Administration.UpdateMeans | internal/database/schedule_store.go:167-209 | an edit goes through exactly for a draft or paused schedule of the version read, a free name and an input that fits |
| Administration.ActivateMeans | internal/database/schedule_store.go:224-275 | a schedule goes live exactly when tenant, connection and every recipient are ready and everyone may see every report |
| Administration.LifecycleMeans | internal/database/schedule_store.go:277-402 | exactly the live schedules can be paused, drafts and paused ones archived and archived ones restored, in the version read |
| Administration.DueMeans | internal/database/schedule_execution_store.go:152-271 | a due schedule moves on exactly when it may send, and is paused otherwise |
| Administration.ArchiveTenantMeans | internal/database/tenant_store.go:298-383 | the whole registry after an archival, row by row |
| RegistryStore.Store.CreateInvitation | internal/database/recipient_store.go:28-100 | succeeds exactly when the tenant exists and identity, seat and reference are new; then both are pending and the reference can be redeemed until it expires |
| RegistryStore.Store.ReissueInvitation | internal/database/recipient_store.go:102-172 | succeeds exactly for a pending seat and a free reference, or as a replay of an open one; the old reference then stops working |
| RegistryStore.Store.RedeemInvitation | internal/database/recipient_store.go:502-592 | succeeds exactly for an open invitation whose LINE identity is known or free; the holder returned is active and the invitation is used up |
| RegistryStore.Store.ReplacePermissions | internal/database/recipient_store.go:327-422 | succeeds exactly for the right version when no deprecated report is added and no live schedule loses a report; the recipient then has exactly the given permissions, and all others keep theirs |
| RegistryStore.Store.Revoke | internal/database/recipient_store.go:424-500 | succeeds exactly when the seat is open and no live schedule uses it; then seat, permissions and open invitations are gone |
| RegistryStore.Store.Create | internal/database/schedule_store.go:81-92 | succeeds exactly when the tenant exists, its schedules do not use the name yet, reports and recipients do not repeat, no report is deprecated, and the recipients belong to the tenant and may see every report; the result is a draft of version 1 |
| RegistryStore.Store.Update | internal/database/schedule_store.go:167-209 | succeeds exactly for drafts and paused schedules of the expected version with a name no other schedule of the tenant uses, no newly selected deprecated report, and permitted recipients; the status stays and the version rises |
| RegistryStore.Store.Activate | internal/database/schedule_store.go:224-275 | goes live exactly without blockers, is a replay when live, and names the blockers otherwise |
| RegistryStore.Store.Pause | internal/database/schedule_store.go:277-315 | succeeds exactly for live and paused schedules, which then are never due |
| RegistryStore.Store.Archive | internal/database/schedule_store.go:317-359 | succeeds exactly for drafts and paused schedules of the expected version, and as a replay for archived ones; nothing can edit it then |
| RegistryStore.Store.Restore | internal/database/schedule_store.go:361-402 | succeeds exactly for an archived schedule of the expected version, which is a draft again |
| RegistryStore.Store.MaterializeDue | internal/database/schedule_execution_store.go:173-263 | pauses a blocked due schedule and advances any other, unless the schedule has a row for its due time already: then nothing changes and it stays due |
| RegistryStore.Store.ArchiveTenant | internal/database/tenant_store.go:298-383 | succeeds exactly for an open tenant of the expected version; then nothing of it is live, seated or redeemable, and rows of other tenants are as they were |
| Calendar.NumbersFollowDates | internal/report/period.go:28-39 | day numbers order dates and name them uniquely |
| Calendar.DateRoundTrip | internal/report/period.go:62 | a formatted date reads back exactly when its year has four digits |
| Calendar.TextRoundTrip | internal/report/comparison_period.go:12-19 | what reads as a date prints as the same text |
| Periods.ResolveIsResolved | internal/report/period.go:24-63 | resolved periods have one to 366 days, month-to-date ones start on the first of their month, single-day presets one day |
| LocalDates.PeriodMeans | internal/report/period.go:24-63 | by the local date of the instant, seven hours ahead of UTC: yesterday, today, or the month up to today; a custom period is the one given exactly when both texts are dates and span one to 366 days |
| LocalDates.EffectiveMeans | internal/schedule/period_policy.go:34-51 | the dates and the label of a scheduled report's period for each preset and kind |
| LocalDates.FormatMeans | internal/report/period.go:62 | a date prints as four digits of the year, two of the month, two of the day |
| LocalDates.FoundMeans | internal/schedule/service.go:196-224 | the occurrences found are the first local times on the chosen weekdays after the moment, Sunday being 0 and 1970-01-01 a Thursday |
| Periods.ComparisonOfResolved | internal/report/comparison_period.go:24-46 | the comparison of every resolved period exists and ends before it; custom ones are adjacent and equally long, month-to-date ones start on the first of the month before and end on the same day, clamped |
| Periods.PriorMonthEnd | internal/report/comparison_period.go:26-33 | the day before the first of a month is the last of the month before, leap years included |
| Periods.ComparisonReadsBack | internal/report/comparison_period.go:48-52 | from preset, instant and texts: a comparison is returned, and its texts read back exactly when the period is late enough in year 0 or after |
| Periods.FirstDayHasNoComparison | internal/report/comparison_period.go:38-41 | the comparison of 0000-01-01 does not read back |
| Periods.EffectivePeriods | internal/schedule/period_policy.go:45-62 | every scheduled report gets a period, and only ranged month-to-date reports more than one day |
| Occurrences.CalculateOccurrences | internal/schedule/service.go:196-224 | exactly the count least allowed instants after the moment, in order; the window of 800 days always suffices |
| Occurrences.NextIsUnique | internal/schedule/service.go:196-224 | that list is the only one |
| Occurrences.FirstAfterIs | internal/schedule/service.go:217-219 | no allowed instant lies between a moment and its next occurrence |
| Occurrences.InstantIsLocal | internal/schedule/service.go:211-216 | every local time exists once, so the check against skipped times never drops a candidate |
| DueTimes.DueTimesIncrease | internal/database/schedule_execution_store.go:204-263 | in every history of interleaved activations (read, compute, store), pauses, edits, test sends and due steps in which stored times fit, due times strictly increase, a live schedule passes none of its times over, and its next run can be materialised |
| DueTimes.CarefulIsExact | internal/database/schedule_store.go:224-260 | a step keeps that promise through the due steps that follow exactly when the time it stores is one of the schedule's, later than every due time and test, and not later than the next occurrence, or, for a test send, when it does not hit an upcoming time |
| DueTimes.UnchangedFits | internal/schedule/service.go:305-327 | with days and time as the activation read them, a stored time fits exactly when it is later than every due time and every test at one of the schedule's times |
| DueTimes.EditDuringActivation | internal/schedule/service.go:305-327 | on any Tuesday an edit from Mondays to every day between read and store makes the live schedule pass over Wednesday to Sunday |
| DueTimes.ActivatedTwice | internal/database/schedule_store.go:224-260 | from a schedule that nothing has happened to, two activations that read it and compute the same time, stored before and after it came due, leave it live with a next run it already had |
| DueTimes.StuckBlocksAll | internal/database/schedule_execution_store.go:159-172 | once such a schedule is the first that is due, no poll, one after another, materialises anything of any schedule |
| ScheduleInput.Validate | internal/schedule/service.go:103-159 | accepts exactly the acceptable inputs, with sorted days |
| ScheduleInput.ClockRoundTrip | internal/schedule/service.go:116-121 | each clock time from 00:00 to 23:59 has one text, and no other text is accepted |
| ScheduleInput.NextOccurrences | internal/schedule/service.go:161-170 | answers exactly for acceptable input and a count from 1 to 100 |
| Trends.AggregatePeriodRows | internal/report/dashboard_builder.go:337-373 | one sum per bucket label, or an error exactly when an amount inside the period does not parse |
| Trends.PeriodBuckets | internal/report/dashboard_builder.go:375-387 | every bucket of the period once, in order, with its index |
| Trends.SameBucket | internal/report/dashboard_builder.go:389-400 | two days share a bucket only when equal up to 62 days, in the same week from the first day up to 186, and in the same month beyond |
| Trends.GroupedUnder | internal/report/summary_query_plan.go:56-70 | the date SQL shows a group under: the day, the first day of its week, or the first of its month |
| Trends.BucketsConserve | internal/report/dashboard_builder.go:337-373 | the buckets add up to the amounts of all rows dated inside the period |
| Trends.GroupedTrend | internal/report/summary_query_plan.go:56-70 | aggregating grouped rows gives each raw bucket, except an emptied first month |
| Trends.TrendsAgree | internal/report/summary_query_plan.go:56-109 | grouped and raw trends agree exactly for up to 186 days, a start on the first of a month, or nothing in the first month |
| Trends.PeriodDecides | internal/report/summary_query_plan.go:56-109 | the two trends agree for all rows exactly when the period has at most 186 days or starts on the first of a month |
| Trends.LongPeriodsNeedMonthStart | internal/report/summary_query_plan.go:63-65 | for every longer period that starts inside a month there are rows on which they differ |
| Trends.RowLimitIsNeverReached | internal/report/summary_query_plan.go:9-109 | a period of up to 366 days has at most 62, 27 or 13 buckets, below the limit of 200 with ten ranked rows |

## Left out

- HTTP handlers, sessions, configuration, cryptography, the SML and LINE clients: plumbing and foreign code. Outcomes of remote calls are inputs.
- The report SQL: a report is a finite set of rows, and the summary SQL a selection over it. Several source rows per stock code are not modelled; codes are distinct. Rows without a customer or item code, which no chunk selects, are not modelled either.
- One total order of codes is assumed on both sides of a chunk merge; a database collation other than byte order is not modelled.
- Idempotency tables, audit rows, listings, retention (it deletes old rows) and the refresh path without generations.
- Refresh bookkeeping (`dashboard_refreshes`) and its replay; only the generation and its runs are modelled.
- The duration estimate of a run is an input.
- ReportStore.Store.Materialize: the time chosen for a test send is an input here; DueTimes computes it.
- NotificationStore.Fail closes an occurrence without cancelling queued siblings; the closing result is about occurrences that are COLLECTING when a run fails.
- The statuses QUEUED and READY of notification runs, which no code sets, and validation of materialised positions, which the insertion keeps contiguous.
- Payload sizes, rendering, labels, the metric texts of `internal/report/summary.go` and the visualisations of reports that are not chunked: decimal formatting over the sums modelled here.
- Row locks and SKIP LOCKED: any eligible row may be claimed in the transition system, the store methods take the first, and polls for due schedules follow one another.
- Changes of a tenant's endpoint host, since the host cap counts by a fixed map.
- boundedEnvInt and chunk selection by configuration.
