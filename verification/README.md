# Durable tasks, score recalculation, tenant parameters and photo reviews

A model of four parts of the system and proofs of what they promise.

**The task queue.** Background tasks are rows of one table. Producers enqueue them in the transaction
that records their cause, under a deduplication key. Workers claim batches in order of time, skipping
locked rows, under fresh lease tokens and wall-clock deadlines; they run a task's effect and its
completion in one transaction, give a failed task back with a delay, or extend their lease.
`LeaseProtocol` is a transition system with one label per SQL statement, so any number of workers
interleave lock, check, effect, completion, commit and crash in any way while the clock moves.
`LeaseInvariant` is the invariant every label keeps, `LeaseTheorems` the promises over all runs,
`QueueMeaning` the words those promises use, columns and literal bounds only, proved to be what the
model does; `LeaseRuns` whole transactions, `TaskLife` a task from admission to completion, `AtomicQueue` a queue whose operations are indivisible, that fences by
itself and that every run refines, `Draining` the order of claims. `TaskDatabase` is the same set of operations as methods over mutable tables: each issues its
statements in order and lets all other workers do anything in between (`Others`, whose body is the
empty run and whose contract, all that callers see, is any run).

**Score recalculation.** Recorded events invalidate the scores of shift sessions. `BonusSources` is the
relation between them, as one join, and `BonusAdmission` the admission of a pair. `BonusMeaning` states,
class by class of events, which sessions an event reaches, and the waiting lists, tasks and markers by
their columns, and proves the join and the anti-joins to be that. `BonusTasks` is the live path, the
media path and the bounded repair pass as methods over mutable tables, each running alone, and
`BonusRecovery` what repeated passes achieve. `AdmissionProtocol` puts the three paths into the task
queue's transition system: recording an event, each path's selects over what its transaction sees at
that instant, each enqueue and each marker are steps that interleave with one another, with other
producers and with every statement of the queue. `AdmissionInvariant` is what every step keeps,
`BonusConfluence` what each path achieves in spite of the others, `AdmissionSoundness` that a pass marks
nobody it should not, and `AdmissionOutcome` which tasks a log ends with.

**Tenant parameters.** `TenantSettings` is the overlay of platform defaults by stored rows with repair
of broken cross-field rules, for any catalogue and rules, and the platform's own catalogue.

**Photos.** `PhotoObjects` is the allocation of palette colours; `PhotoInspection` the identity check,
the outcome and the two schemas of a photo review.

Recovery converges over every log the system writes: marker keys are written by the repair pass alone,
each for its own session, every step keeps it so (`ReachableLogsConverge`), and `RecoveryConverges` and
`SettlesAfterCeiling` need nothing else. Its limit of robustness is stated too. If some other event ever
held a session's marker key, a pass would skip the session (packages/db/src/bonus-tasks.ts:174) and keep
selecting it: `SquattedKeyNeverSettles` is such a store, `SettlesExactlyWhen` the exact condition for
convergence over any log, and `MarkedInTime` with `StarvedBehindStuck` says which sessions are still
reached: those with fewer such sessions before them than the limit.

Assumptions, all visible in the model: statements are atomic and read the clock once; isolation is read
committed, with the row locks, `SKIP LOCKED` and unique indexes of the database; the database clock is
monotone; generated identifiers and tokens are new, and nobody names a row before it is committed; a
statement that waits for a lock may be cancelled; an effect does not touch its own task row; producers
other than the repair pass do not use its event keys (apps/api/src/shift/shift.service.ts:1097,
apps/worker/src/media/process.ts:315), nor the recalculations' task keys and kind.
Identifiers, tokens and clock readings are parameters.

## Model

| member | source | states |
|---|---|---|
| Draining.BatchByRank | packages/db/src/background-tasks.ts:150-170 | a claim takes exactly the unlocked rows of its kinds that are PENDING with available_at reached or RUNNING with lease_until reached, and have fewer than limit such rows before them by (available_at, id) |
| LeaseInvariant.StepKeepsInv | packages/db/src/background-tasks.ts:132-284 | every statement of every worker keeps the table's row shapes, logs, unique indexes and each transaction's knowledge of the rows it locked |
| LeaseInvariant.RunKeepsInv | packages/db/src/schema/background-tasks.ts:71-113 | the unique indexes and every check constraint, of kind, version, payload, key, binding, availability, state and error code, hold in every state any run reaches |
| LeaseTheorems.ExactlyOnce | packages/db/src/background-tasks.ts:197-227 | over every interleaving a task's effect commits at most once, and it has committed exactly when the row is COMPLETED |
| LeaseTheorems.ReachableRow | packages/db/src/schema/background-tasks.ts:82-112 | every reachable row meets the check constraints, has one attempt per committed claim, never left PENDING before it was due, and has a deadline at most 300000 ms ahead |
| LeaseTheorems.RowHistory | packages/db/src/background-tasks.ts:172-256 | along every run intents are immutable, COMPLETED rows are final and attempts never decrease |
| LeaseTheorems.RowStep | packages/db/src/background-tasks.ts:203-226 | a committed row changes only by the commit of a transaction that holds its lock |
| LeaseTheorems.OthersRun | packages/db/src/background-tasks.ts:168-170 | whatever other workers do for as long as they like, a locked row stays as it was |
| LeaseTheorems.LockExcludes | packages/db/src/background-tasks.ts:170-207 | as long as a transaction holds a row, whatever the others do, none of them can run, retry, renew or claim it |
| LeaseTheorems.LockCoversTheGap | packages/db/src/background-tasks.ts:202-226 | after the final lease check the clock may pass the deadline and others may run arbitrarily: the row is still as checked and the commit completes it and logs its effect once |
| LeaseRuns.UncommittedRunIsInvisible | packages/db/src/background-tasks.ts:192-226 | from its opening on, an attempt to run a task that has not committed leaves the database as the other workers' statements alone would, unless a claim would have taken the row while it was locked |
| LeaseRuns.FailedRunLeavesNothing | packages/db/src/background-tasks.ts:192-226 | an attempt that ended at a failed lease check, an error or a crash is as if it had never been, under the same condition |
| LeaseRuns.ExpiredRunLeavesNothing | packages/db/src/background-tasks.ts:209-224 | a lease that has run out at the first or the final check ends the attempt there, and so leaves nothing of it |
| LeaseRuns.NoticedExactlyWhen | packages/db/src/background-tasks.ts:170 | a claim selects other rows because of the lock exactly when it would have taken the locked row |
| LeaseRuns.LiveLeaseIsUnnoticed | packages/db/src/background-tasks.ts:156-170 | so while the lease lasts any number of workers may claim the row's kind unaffected: the condition holds |
| LeaseRuns.OwnerCanProceed | packages/db/src/background-tasks.ts:197-225 | from the lock on, whatever others interleave, each statement of the owner is possible and succeeds as long as the clock has not reached the deadline |
| LeaseRuns.OwnerFinishes | packages/db/src/background-tasks.ts:212-226 | a staged effect before the deadline ends completed and logged once, whatever others and the clock do before the commit |
| LeaseRuns.OwnerCanFinish | packages/db/src/background-tasks.ts:202-226 | such a run exists: alone on an unlocked row, a worker whose lease outlasts the effect completes the task, changing the row and the effect log only |
| LeaseTheorems.OneOwner | packages/db/src/background-tasks.ts:115-122 | leases of a task never interleave: once another identity owns it, the first is fenced in every continuation |
| LeaseTheorems.ClaimFencesEarlierOwners | packages/db/src/background-tasks.ts:172-187 | committing a claim replaces the owner of every row it takes and fences off the earlier one |
| LeaseTheorems.LosingIsDying | packages/db/src/background-tasks.ts:115-122 | whatever step takes a row from its owner fences that identity |
| LeaseTheorems.DeadForever | packages/db/src/background-tasks.ts:115-122 | a fenced identity stays fenced in every continuation |
| LeaseTheorems.NeverRegained | packages/db/src/background-tasks.ts:115-122 | ownership lost anywhere along a run is never regained in any continuation |
| LeaseTheorems.StaleIdentityIsNoOp | packages/db/src/background-tasks.ts:209-282 | the run, retry and renew statements of a fenced identity change nothing after any continuation |
| LeaseTheorems.AbandonedTaskIsClaimable | packages/db/src/background-tasks.ts:141-166 | 300000 ms after a worker stopped renewing, a task still with it is claimable, and a claim sees it unless a transaction holds its row |
| LeaseTheorems.RenewNeverShortens | packages/db/src/background-tasks.ts:274-282 | a committed renewal never shortens a lease and changes nothing else |
| LeaseTheorems.PendingUntilAvailable | packages/db/src/background-tasks.ts:156-160 | a PENDING row is untouched by everybody until its time comes |
| LeaseTheorems.RetryWaitsOutItsDelay | packages/db/src/background-tasks.ts:245-257 | after a retry with delay d the task stays PENDING for everybody until d has elapsed since the update |
| LeaseTheorems.EnqueueReplays | packages/db/src/background-tasks.ts:85-106 | for the task's whole life, also after completion, the same intent gets the same identifier and changes nothing |
| LeaseTheorems.EnqueueConflicts | packages/db/src/background-tasks.ts:87-105 | a different intent under a stored key or bonus pair is refused and changes nothing, at any later time |
| LeaseTheorems.OneRowPerKey | packages/db/src/schema/background-tasks.ts:72-75 | at most one row per deduplication key and one per bonus source and target in every reachable state |
| AtomicQueue.StepRefines | packages/db/src/background-tasks.ts:132-284 | every statement is one operation of the atomic queue or nothing; operations take effect at the commit and a batch only takes tokens never used before |
| AtomicQueue.RunRefines | packages/db/src/background-tasks.ts:132-284 | every interleaved run is a run of the atomic queue that ends in the same queue |
| AtomicQueue.QueueNeverRegains | packages/db/src/background-tasks.ts:115-122 | in the atomic queue itself, ownership lost anywhere along its operations never comes back |
| AtomicQueue.ReachedTokensKnown | packages/db/src/background-tasks.ts:172-178 | every queue a run reaches knows the tokens of its owners, so the former applies to it |
| Draining.CallIsRun | packages/db/src/background-tasks.ts:149-189 | an uninterrupted claim is a run of the protocol that leaves its batch running and all else unchanged |
| Draining.ClaimTakesFirst | packages/db/src/background-tasks.ts:168-170 | with any rows locked, a claim leaves such a row only when its batch is full, and then the row sorts after all it takes |
| Draining.CallShrinksEligible | packages/db/src/background-tasks.ts:149-189 | the rows eligible after a claim are those before it without its batch |
| Draining.DrainingSorts | packages/db/src/background-tasks.ts:149-189 | k claims of limit n with the clock fixed take exactly the first k times n waiting rows by (available_at, id), each once; the others wait on |
| TaskLife.WaitingTaskGetsDone | packages/db/src/background-tasks.ts:132-226 | a waiting row next in line is in the next claim's batch, and its owner completes it: one more attempt, no lease and no error left, its effect logged once |
| TaskLife.AdmittedTaskGetsDone | packages/db/src/background-tasks.ts:52-226 | an accepted intent that no stored row rivals is admitted by its producer's commit and, once due and next in line, claimed and completed at its first attempt |
| Ordering.FirstThenNext | packages/db/src/background-tasks.ts:168-169 | taking m rows in order and then n of the rest is taking m + n rows |
| Ordering.FirstIsRankBelow | packages/db/src/bonus-tasks.ts:115 | ORDER BY with LIMIT n returns exactly the rows with fewer than n rows before them |
| Ordering.BeforeIsByColumns | packages/db/src/bonus-tasks.ts:115 | the order is by time, then by the first and the second identifier |
| Ordering.TextLessIsDictionaryOrder | packages/db/src/background-tasks.ts:168 | identifiers compare as in a dictionary |
| Ordering.FirstWithout | packages/db/src/background-tasks.ts:168-169 | a row that LIMIT leaves out may as well be absent |
| QueueMeaning.AdmissionMeans | packages/db/src/background-tasks.ts:52-107 | the exact ground of each refusal, field by field, which changes nothing; an answered identifier names the only row under the key or pair, with exactly the intent asked for, new rows waiting for their due time |
| QueueMeaning.CandidatesAreNext | packages/db/src/background-tasks.ts:150-170 | the claim's select, told by its columns and ranks |
| QueueMeaning.RowsMean | packages/db/src/background-tasks.ts:212-282 | every column of a completed, retried and renewed row |
| TaskDatabase.Database.EnqueueBackgroundTask | packages/db/src/background-tasks.ts:52-107 | the method gives such an answer over what the transaction sees |
| TaskDatabase.Database.ClaimBackgroundTasks | packages/db/src/background-tasks.ts:132-190 | refuses exactly limits outside 1 to 100, leases outside 1 to 300000 ms and kind lists that are empty, too long or unknown; returns exactly the rows next in line, each committed as returned, with its token, one more attempt and a deadline of the requested length |
| TaskDatabase.Database.RunBackgroundTask | packages/db/src/background-tasks.ts:197-227 | success means this call's own transaction held the lease, staged the effect and committed it with every column of the completion, logging it once; failure means it committed nothing and the effect threw, the lease is not held or the wait was given up; a fenced identity always fails |
| TaskDatabase.Database.RetryBackgroundTask | packages/db/src/background-tasks.ts:230-259 | refuses exactly invalid options; true means this call's own update, made under the lease, set the row back for at least the delay with this error, false that the lease was not held |
| TaskDatabase.Database.RenewBackgroundTaskLease | packages/db/src/background-tasks.ts:262-284 | refuses exactly invalid options; true means this call's own update extended the lease, still owned for at least the new duration, false that the lease was not held |
| BonusMeaning.SourcesMean | packages/db/src/bonus-tasks.ts:76-99 | for every event and every database state the join names exactly the sessions of its class: its own, its handover's, its request's (own, assignment, employee in period), its incident's, its presence's or by the fallback, its photo's, its period's at the site or none; of any other type nobody |
| BonusMeaning.MissingIsBacklog | packages/db/src/bonus-tasks.ts:107-116 | the first anti-join is the pairs of an event and such a session with no row bound to them, by (received_at, event, session) |
| BonusMeaning.OrphansAreUnscored | packages/db/src/bonus-tasks.ts:149-154 | the second is the terminal unscored sessions that no event reaches, by (created_at, id) |
| BonusSources.MediaPathAgrees | packages/db/src/media-tasks.ts:42-48 | the media path selects exactly the sessions related to its MEDIA_PROCESSED event, in every database state |
| BonusSources.LatestPresenceUnique | packages/db/src/bonus-tasks.ts:70-74 | the fallback names at most one presence |
| BonusSources.LatestPresenceExists | packages/db/src/bonus-tasks.ts:70-74 | the fallback names one whenever the employee arrived by the anchor |
| BonusAdmission.BonusKeyInjective | packages/db/src/media-tasks.ts:28 | different pairs get different deduplication keys |
| BonusAdmission.AdmitPairAt | packages/db/src/media-tasks.ts:21-34 | the enqueue of a pair creates its task when there is none, finds it when it was admitted for the same time, and conflicts exactly when it was admitted for another |
| BonusAdmission.AdmitPair | packages/db/src/media-tasks.ts:21-34 | at the recorded time it never conflicts |
| BonusAdmission.AdmittedIsNoLongerMissing | packages/db/src/bonus-tasks.ts:113-115 | admitting a pair removes exactly that pair from the anti-join |
| BonusAdmission.MarkerAdopts | packages/db/src/bonus-tasks.ts:149-168 | a marker gives its session a source and changes no other session's standing |
| BonusAdmission.MarkerCreatesNoGap | packages/db/src/bonus-tasks.ts:157-191 | a marker and its task create no missing pair anywhere |
| BonusTasks.BonusStore.EnqueueMediaProcessing | packages/db/src/media-tasks.ts:7-18 | success leaves the photo with exactly the task MEDIA_PROCESS, version 1, key "media." and id, payload the id, due when received; a new one waits for claims of that kind from then on; refusal means another intent holds the key; recalculations are not disturbed |
| BonusTasks.BonusStore.EnqueueBonusRecalculation | packages/db/src/media-tasks.ts:21-34 | at any time passed, creates the task of a pair without one, every column of it, finds it when its intent is the same, refuses otherwise, and touches no other pair |
| BonusTasks.BonusStore.EnqueueEventBonusRecalculations | packages/db/src/bonus-tasks.ts:119-132 | afterwards the sessions of the event's class have its task, due when it occurred, and nothing else was added; the count is that of these sessions, new or not |
| BonusTasks.BonusStore.EnqueueMediaBonusRecalculations | packages/db/src/media-tasks.ts:37-59 | for the stored MEDIA_PROCESSED event exactly the photo's sessions gain its task, and the created ones are counted; it conflicts exactly when it is passed another time and some target already has its task |
| BonusTasks.BonusStore.PendingBonusSourceTargets | packages/db/src/bonus-tasks.ts:107-116 | refuses exactly limits outside 1 to 100; returns min(limit, waiting) waiting pairs, a pair exactly when fewer than limit waiting pairs sort before it |
| BonusTasks.BonusStore.RecoverBonusTasks | packages/db/src/bonus-tasks.ts:135-193 | a pass adds exactly the tasks of the first waiting pairs and, for the rest of its limit, one audited marker and task for each of the first terminal unscored sessions without a source whose key is free; it keeps every stored row and event and reports exactly what it added; an invalid limit changes nothing |
| BonusRecovery.SettledMeans | packages/db/src/bonus-tasks.ts:134-154 | with no backlog every source pair and every finished unscored session has a task |
| BonusRecovery.PassDoesItsShare | packages/db/src/bonus-tasks.ts:135-193 | a pass shrinks the backlog by what it reports, at most min(limit, backlog), and by that much exactly when no selected session's marker key is taken |
| BonusRecovery.RecoveryConverges | packages/db/src/bonus-tasks.ts:135-193 | over a log whose marker keys belong to their own sessions the backlog after any passes is the initial backlog less the sum of their limits, or zero, and the log stays so |
| BonusRecovery.SettlesExactlyWhen | packages/db/src/bonus-tasks.ts:155-174 | over any log, passes settle the store if and only if their limits add up to the backlog and no orphan's marker key was taken by another event at the start |
| BonusRecovery.SettlesAfterCeiling | packages/db/src/bonus-tasks.ts:134-148 | over such a log, with one limit, n passes settle the store exactly when n is at least ceil(backlog / limit) |
| BonusRecovery.OwnKeysLeaveNobodyStuck | packages/db/src/bonus-tasks.ts:157-174 | where marker keys belong to their own sessions no pass ever skips one |
| BonusRecovery.SquattedKeyNeverSettles | packages/db/src/bonus-tasks.ts:169-174 | a concrete store on which every pass of every size does nothing although a session is missing its task |
| BonusRecovery.MarkedInTime | packages/db/src/bonus-tasks.ts:134-174 | from any start, with u skipped sessions before it, u below the limit, a session is marked once, after the passes that admit the missing pairs, n more passes times (limit - u) exceed the markable ones before it |
| BonusRecovery.StarvedBehindStuck | packages/db/src/bonus-tasks.ts:149-174 | with at least limit skipped sessions before it a session is never marked |
| BonusRecovery.NoPairStarves | packages/db/src/bonus-tasks.ts:106-116 | each pass moves a missing pair up by the limit while no earlier pair appears, whatever else is recorded or admitted in between |
| BonusRecovery.AdmittedInTime | packages/db/src/bonus-tasks.ts:106-116 | a missing pair of rank r is admitted within ceil(r / limit) passes |
| BonusRecovery.AdmittedByRank | packages/db/src/bonus-tasks.ts:106-116 | one pass admits a missing pair exactly when fewer than limit missing pairs sort before it |
| AdmissionInvariant.StepKeepsSysInv | packages/db/src/bonus-tasks.ts:119-193 | every step of every path, producer and worker keeps tasks and log in agreement, event keys unique, marker keys with their own sessions and every marker with its task |
| AdmissionInvariant.RunKeepsSysInv | packages/db/src/media-tasks.ts:21-59 | so they agree in every state that any interleaving of live, media and repair transactions reaches |
| AdmissionInvariant.QueueRuns | packages/db/src/background-tasks.ts:132-284 | the queue under the admission paths is a run of the lease protocol, so all its promises hold there |
| BonusConfluence.AdmissionNeverConflicts | packages/db/src/background-tasks.ts:85-106 | in every reachable state the enqueue of any pair of an event a transaction sees is answered, never refused |
| BonusConfluence.LiveAdmissionIsComplete | packages/db/src/bonus-tasks.ts:119-132 | when the transaction that selected an event's targets commits, whatever ran in between, every session it saw related has exactly one task for good |
| BonusConfluence.MediaAdmissionIsComplete | packages/db/src/media-tasks.ts:37-59 | the same for the media path, for every session related to the object's event |
| BonusConfluence.RepairAdmitsItsPairs | packages/db/src/bonus-tasks.ts:135-145 | the same for a repair pass, for the first limit pairs missing from what it saw at its select |
| AdmissionSoundness.PassMarksItsSessions | packages/db/src/bonus-tasks.ts:135-191 | however passes race, when one commits, each of the first unscored sessions its second select saw, as many as its first one left room for, has exactly one marker and that marker exactly one task, for good |
| AdmissionSoundness.PassGoesOn | packages/db/src/bonus-tasks.ts:146-154 | a pass that saw fewer waiting pairs than its limit cannot commit without its second select |
| AdmissionSoundness.PassIsBounded | packages/db/src/bonus-tasks.ts:134-154 | from its select on a pass admits and marks no more than its limit, whatever the others do |
| AdmissionSoundness.MarkersAreEarned | packages/db/src/bonus-tasks.ts:149-168 | every marker of a reachable log is of a session that some pass's select found terminal, unscored, without a source and in its turn |
| BonusConfluence.OneMarkerPerSession | packages/db/src/bonus-tasks.ts:157-174 | interleaved passes never write two markers of one session, and every committed marker has its task |
| BonusConfluence.ReachableLogsConverge | packages/db/src/bonus-tasks.ts:155-174 | every reachable log meets the condition under which recovery converges |
| BonusConfluence.CompletedPairStays | packages/db/src/background-tasks.ts:87-106 | a completed pair is never admitted again |
| AdmissionOutcome.RunRelated | packages/db/src/bonus-tasks.ts:77-99 | as long as no relation that a select saw is withdrawn, each select over the tables of its own instant, only related pairs are ever admitted |
| AdmissionOutcome.LogDecidesTasks | packages/db/src/bonus-tasks.ts:76-145 | when nothing waits the recalculations are exactly those of every event and the sessions of its class in the final tables, one each, due when the event occurred |
| AdmissionOutcome.AdmissionIsConfluent | packages/db/src/bonus-tasks.ts:119-145 | any two interleavings, over tables that change differently meanwhile, that end with the same log and tables and nothing missing end with the same recalculations |
| TenantSettings.ResolveTenantSettings | packages/contracts/src/tenant-settings.ts:153-173 | every parameter has its override or its default; an override is the value of the last valid row of its key unless a broken rule resets it; a key is reported exactly when a row of it fails or a broken rule names it, once per failing row in row order, after a repair once each |
| TenantSettings.WithConsistentPairs | packages/contracts/src/tenant-settings.ts:193-209 | exactly the keys of broken rules fall back to their defaults and are reported once each |
| TenantSettings.UniquesAreDistinct | packages/contracts/src/tenant-settings.ts:202-208 | after a repair no key is reported twice |
| TenantSettings.LastValidRowWins | packages/contracts/src/tenant-settings.ts:160-171 | an override is the value of the last valid row of its key, and is in range |
| TenantSettings.RefusedKeys | packages/contracts/src/tenant-settings.ts:164-168 | a key is reported exactly when some row of it fails validation |
| TenantSettings.IsOverlay | packages/contracts/src/tenant-settings.ts:152-173 | the settings are the defaults overlaid by the returned overrides, for exactly the catalogue's keys |
| TenantSettings.OverlayInRange | packages/contracts/src/tenant-settings.ts:152-173 | with defaults in range every resolved value is in range |
| TenantSettings.RuleAfterRepair | packages/contracts/src/tenant-settings.ts:192-209 | for rules on disjoint keys, a rule holds in the result exactly when the stored values or the defaults satisfy it |
| TenantSettings.NoProblemsForAnyRows | packages/contracts/src/tenant-settings.ts:211-214 | the result has no problems for all stored rows if and only if the defaults have none |
| TenantSettings.ReportedProblems | packages/contracts/src/tenant-settings.ts:211-214 | a key is a problem exactly when a broken rule reports on it |
| TenantSettings.NormalForm | packages/contracts/src/tenant-settings.ts:130-132 | writing the overrides back as rows in any order resolves to the same settings and overrides with nothing invalid |
| TenantSettings.RowOrderIsIrrelevant | packages/contracts/src/tenant-settings.ts:153-173 | with one row per key the order of rows does not matter |
| TenantSettings.ForeignRowsAreIgnored | packages/contracts/src/tenant-settings.ts:160-163 | rows with a foreign prefix or unknown name never change the result |
| TenantSettings.PlatformSettingsAreSafe | packages/contracts/src/tenant-settings.ts:12-190 | the platform's own catalogue, defaults and code rule meet all assumptions, so its settings are always in range and without problems |
| PhotoObjects.NextColorIsFirstLeastUsed | packages/contracts/src/photo-objects.ts:26-30 | the colour given is the earliest in the palette among the least used, and only that one |
| PhotoObjects.NextColorIsHex | packages/contracts/src/photo-objects.ts:5-30 | whatever is in use, the colour given has the stored form of a hash and six lower-case hexadecimal digits |
| PhotoObjects.ColorsCycle | packages/contracts/src/photo-objects.ts:7-30 | from a catalogue without palette colours object k gets colour k modulo the palette |
| PhotoObjects.ObjectColors | packages/contracts/src/photo-objects.ts:12-25 | the same for the twelve colours of the palette, which are all different |
| PhotoObjects.GapNeverGrows | packages/contracts/src/photo-objects.ts:26-30 | from any catalogue the gap between most and least used colour never exceeds max(initial gap, 1) |
| PhotoObjects.BecomesBalanced | packages/contracts/src/photo-objects.ts:26-30 | each allocation fills one place of the deficit until none is left; from then on the gap is at most 1 |
| PhotoInspection.CheckIdentity | packages/contracts/src/photo-inspection.ts:105-135 | the one-pass check over template-string keys and Set sizes reports exactly the issues stated on findings, each kind by the regions and rejections it is about |
| PhotoInspection.KeyIsIdentity | packages/contracts/src/photo-inspection.ts:109 | two findings share a key exactly when they are the same run and index |
| PhotoInspection.AcceptedIdentity | packages/contracts/src/photo-inspection.ts:105-135 | no issue is reported exactly when region identifiers differ, every sourced region names a run, no finding is used twice, rejections differ, and none is both accepted and rejected |
| PhotoInspection.OutcomeOfParts | packages/contracts/src/photo-inspection.ts:81-93 | the outcome of a photo is the worse outcome of any two parts of its regions |
| PhotoInspection.OutcomeIgnoresOrder | packages/contracts/src/photo-inspection.ts:81-93 | neither the order nor the repetition of regions changes the outcome |
| PhotoInspection.CheckInput | packages/contracts/src/photo-inspection.ts:140-161 | each issue is reported exactly on its ground, read off the verdicts, reason, comment and reference flag; none exactly when identities are sound and the status explained |
| PhotoInspection.SavedIsStoredAndJustified | packages/contracts/src/photo-inspection.ts:94-161 | what the two schemas accept, field by field: stored reviews fit the sizes and have sound identities, saved ones must also explain their status |
| PhotoInspection.SavedReadsBack | packages/contracts/src/photo-inspection.ts:136-161 | whatever is saved is accepted when read back, its status follows from its regions in any order, and a reference photo has only allowed regions |

## Left out

- TaskDatabase.Database.ClaimBackgroundTasks: the returned rows are a map, since UPDATE ... RETURNING promises no order.
- TaskDatabase.Database.RunBackgroundTask: models the effect as one log entry committed with the completion and its writes as opaque; a connection lost during commit is the protocol's Abort label.
- BonusTasks.BonusStore.RecoverBonusTasks: the method runs without interference inside the pass; passes that interleave statement by statement are those of AdmissionProtocol.
- AdmissionOutcome.LogDecidesTasks: a task whose relation is withdrawn after its admission stays, so such tables are set apart; what a path selects from them is covered by BonusConfluence.
- LeaseRuns.UncommittedRunIsInvisible: a claim that would have taken the row, its lease having run out, does see the lock; `NoticedExactlyWhen` shows that this is the only exception and `Draining.BatchByRank` which claims these are.
- created_at and updated_at columns, foreign keys to events and sessions, and integer overflow of attempts.
- Payload contents: a task's payload is an opaque map of text fields compared by equality.
- The truncation of an event's microseconds when its time passes through a JavaScript Date: event times are as the enqueue receives them.
- Unique violations other than the two indexes of the task table, and the database's deadlock detection beyond a cancelled wait.
- lockBonusMonthWithin, the runners, relays and handlers that call these operations, and the shift, scoring and scheduling rules of packages/domain.
- Setting values other than integers, which all fail validation alike, and the grouping of parameters for display.
- photoObjectKey, photo geometry, guidance text and the model-run schemas: data without behaviour worth proving.
