# Fairlead verification

A Dafny model of Fairlead's job scheduler, its durable snapshot, its synchronous routing, its callback delivery and
its priority permits, with proofs of what they keep under every interleaving. `dafny verify dfyconfig.toml` checks the
whole project.

## What is modelled

- **Jobs** (`JobIds`, `JobModel`, `JobInvariant`, `JobRuns`, `JobExactness`, and `Jobs` in `JobRegistry.dfy`). The registry is a lease
  protocol over redundant state: a job map, three priority queues, a submission order, a key index, leases with attempt
  numbers and callback state. `JobModel` says what each operation makes of a registry value; the class `JobRegistry`
  updates its fields in place, with the source's loops and its order of checks, and each method is proved to compute the
  specification, keep the index invariant and leave the table in step with memory. `JobExactness` says what a sweep, a prune and a
  claim do without their loops, and `JobEffects` says every operation again in the fields of its records alone: when it takes effect,
  what it changes and answers, and that nothing else moves. `JobRuns` takes operations as events and proves, by induction on arbitrary runs, terminal
  stability, single acceptance, attempt fencing, the termination measure, key idempotency and callback retention.
- **Durable snapshot** (`JobStore`, `Sorting`, `Restarts`). Rows carry positions; loading sorts and rebuilds. Load inverts
  replace for every valid registry, so a restart is one expiry sweep, up to `nextId`. `Restarts` follows runs through crashes:
  which terminal records and which attempts are safe across restarts is said exactly, job by job.
- **Workers and handlers** (`Workers`, `Slots`, `SlotLedger`, `HandlerRuns`, `Preview`, `WorkerEffects`). Each handler is a thread with a program counter whose steps are single
  operations on one of the two registries; any number of them interleave with everything else. The results are slot
  conservation and, counted over whole runs, that each accepted claim has its slot released exactly once. `HandlerRuns` follows one call from its first step to its last: which
  registry operations it makes, and when none, whatever happens in between.
- **Routing** (`Circuit`, `Selector`, `Proxy`, `RoutingEffects`). The breaker is a function of its history; the tiered selector, the ordered
  pools around it and the retry loop around those share their circuits: between any two questions to a circuit another
  request may do anything to them, or nothing when the flag `quiet` says so. What they choose is said of the answers they
  got, and at one instant it is a declarative optimum; `RoutingEffects` says it in loads, memory, status codes and marks.
- **Callbacks and permits** (`Callbacks`, `DeliveryRuns`, `PriorityPermits`). Interleaved protocols: dispatches, delivery tasks and registry
  operations in any order; semaphore and counter updates as separate atomic steps in any order. The procedures themselves
  are methods that refine them: between two of their steps any moves of the others may happen.

The clock is a parameter of every operation that reads it; in routing each look at it may show any time. It needs to be monotone only where a result says so. Upstream replies,
callback replies, resource reports and the affinity lookup are parameters.

## Where the code differs from its comments

- `HalfOpen` is described as letting one request through (src/router/circuit.rs:9-11); the code admits every caller
  (src/router/circuit.rs:49-54), and so does the model.
- The selector is described as returning the first available backend on the origin node and walking the rest in declared order
  (src/router/fallback.rs:12-15); the code takes the best by resource rank in both tiers.
- A lookup that finds a key whose job is gone (src/jobs.rs:356) cannot happen: the key index is exact. Neither can the failure return of
  the retry loop at src/proxy/mod.rs:205-228: a selection at the head of the loop always finds the list of attempts empty.
- A pruned newest id comes back after a restart (src/storage.rs:116); `NextIdSurvivesIffNewestRetained`, `ReissuedIffNewestPruned`,
  `FrozenIffNumberKept` and `FencedIffAttemptsKept` give the exact conditions, `PrunedIdComesBack` a life that shows it.
- Re-registration may lower a maximum below its use (src/workers.rs:152-161); `LimitBrokenIffLowered` gives the exact condition,
  `LoweringBreaksTheLimit` a run that shows it.

## Model

| member | source | states |
|---|---|---|
| `Jobs.JobRegistry.Submit` | src/jobs.rs:339-391 | the in-place submission leaves exactly the state and reply of the specification `Submit`: complaints change nothing, a known key answers with its job or rejects, otherwise a new queued job is appended everywhere; memory and table stay in step |
| `Jobs.JobRegistry.FindClaimable` | src/jobs.rs:642-650 | the search over the three queues returns the first claimable id in claim order, or none |
| `Jobs.JobRegistry.ClaimNext` | src/jobs.rs:633-671 | the method leaves the state and reply of `Claim`, whose choice and new record `ClaimChoice` and `ClaimEffect` state in fields; the table is kept in step |
| `Jobs.JobRegistry.Renew` | src/jobs.rs:680-718 | every refusal in its order and unchanged state; otherwise only the expiry and the update time move |
| `Jobs.JobRegistry.Complete` | src/jobs.rs:720-776 | accepts a completion only under a live lease (and matching attempt if one is named); identical replay acknowledged unchanged; other reports refused unchanged |
| `Jobs.JobRegistry.Fail` | src/jobs.rs:778-846 | the method leaves the state and reply of `FailLease`, which `FailEffect` states in fields: requeued at the tail of its own queue exactly if retryable with attempts left; the table is kept in step |
| `Jobs.JobRegistry.Cancel` | src/jobs.rs:848-870 | any non-terminal job becomes cancelled and leaves its queue; its lease is kept in the record; terminal jobs are untouched |
| `Jobs.JobRegistry.RequeueExpiredLocked` | src/jobs.rs:962-1011 | the two loops of the sweep compute the specification `Sweep`, report included |
| `Jobs.JobRegistry.AppendRequeued` | src/jobs.rs:1003-1008 | appending the requeued ids one by one gives each queue its old contents followed by its own requeued ids; the duplicate check never fires |
| `Jobs.JobRegistry.RequeueExpired` | src/jobs.rs:673-678 | the public sweep, made durable |
| `Jobs.JobRegistry.FindVictims` | src/jobs.rs:917-935 | the scan stops at the limit and has collected exactly the first prunable ids, counting the jobs kept for their callbacks among those scanned |
| `Jobs.JobRegistry.PruneTerminal` | src/jobs.rs:909-951 | the removal loop computes the specification `Prune`: jobs, keys, order, queues, and the per-status counts sorted by rank |
| `Jobs.JobRegistry.RecordRemoved` | src/jobs.rs:230-244 | one more removal of a status adds one to its entry, or makes it |
| `Jobs.JobRegistry.PendingCallbackJobs` | src/jobs.rs:551-565 | the terminal jobs with a URL and an undelivered callback, in submission order |
| `Jobs.JobRegistry.BeginCallbackAttempt` | src/jobs.rs:567-583 | counts and stamps an attempt exactly when the job is terminal, has a URL and is undelivered |
| `Jobs.JobRegistry.RecordCallbackSuccess` | src/jobs.rs:585-596 | marks the callback delivered with its HTTP status, and changes nothing else |
| `Jobs.JobRegistry.RecordCallbackFailure` | src/jobs.rs:598-615 | records the failure only while undelivered |
| `Jobs.JobRegistry.InMemory` | src/jobs.rs:311-317 | an empty registry satisfies the invariant |
| `Jobs.JobRegistry.WithStore` | src/jobs.rs:323-337 | restart refinement: a registry opened over the table of any valid registry is exactly that registry with `nextId` the largest retained number, swept once; the table is rewritten only if something expired |
| `Jobs.JobRegistry.Recover` | src/jobs.rs:327-331 | the sweep of what was loaded, written back only if something expired, leaves registry and table in step |
| `JobRuns.ApplyKeepsWellFormed` | src/jobs.rs:339-1011 | every operation keeps the index invariant: queued iff once in its own queue, order lists the retained jobs once each, the key index is the inverse of the jobs' keys, every id is issued |
| `JobRuns.RunKeepsWellFormed` | src/jobs.rs:339-1011 | the index invariant after every run |
| `JobInvariant.NextIdFresh` | src/jobs.rs:360-363 | the next identifier is not in use |
| `JobIds.JobIdInjective` | src/jobs.rs:363 | distinct numbers give distinct identifiers |
| `JobIds.ParseReadsBack` | src/storage.rs:305-309 | an identifier reads back as its number exactly when the number fits 64 bits |
| `JobRuns.ApplyOnJob` | src/jobs.rs:339-1011 | under any operation identifiers are added only by submission, removed only by pruning and never reused, and a retained record changes as its own case says |
| `JobRuns.StepEvolves` | src/jobs.rs:652-1000 | one step on one record: request fields fixed, attempts never fall, a status change lowers the measure, terminal records freeze, a running lease keeps worker and attempt |
| `JobRuns.TerminalForever` | src/jobs.rs:732-870 | once terminal, everything but callback state is fixed for as long as the job is retained |
| `JobRuns.TerminalAnswers` | src/jobs.rs:691-870 | however a job became terminal, at every later point a report repeating its ending is acknowledged, and every other report, cancel or renewal is refused; nothing changes |
| `JobRuns.CompletionAcceptedOnce` | src/jobs.rs:732-775 | after an accepted completion, with or without an attempt number, the identical report under the attempt that ended is acknowledged without change at every later point, and every other completion, failure or cancel is refused without change |
| `JobRuns.FinalFailureAcceptedOnce` | src/jobs.rs:790-845 | the same after a final failure |
| `JobRuns.CancelIsFinal` | src/jobs.rs:848-870 | after a cancel that took effect every report, cancel and renewal is refused without change |
| `JobRuns.TimeoutIsFinal` | src/jobs.rs:995-999 | the same after a job has failed by its last timeout |
| `JobRuns.StatusChangesBounded` | src/jobs.rs:652-1000 | however operations interleave, a job makes at most 2 x max_attempts status changes |
| `JobRuns.StatusChangesWithinMeasure` | src/jobs.rs:652-1000 | status changes made plus the measure left never exceed the measure at the start |
| `JobRuns.AttemptIssuedOnce` | src/jobs.rs:652-664 | each (job, attempt) pair is issued by at most one claim of a run |
| `JobRuns.LeaseWasGranted` | src/jobs.rs:658-663 | every lease in force was granted by a claim of the run, or held at its start, to the same worker |
| `JobRuns.AttemptFencing` | src/jobs.rs:742-756 | a report carrying attempt `a` changes the job only if `a` is current, was issued to that worker alone, and the lease has not expired |
| `JobRuns.SubmitIdempotent` | src/jobs.rs:344-358 | while its job is retained, at any status, a key answers the same request with that job and rejects any other, changing nothing, and no other job carries the key |
| `JobRuns.ResubmissionReturnsTheJob` | src/jobs.rs:339-391 | an accepted keyed submission, repeated at any later point of any run, returns its own job as it then is and changes nothing |
| `JobRuns.KeyFreeIffUnowned` | src/jobs.rs:344-390 | a submission under a key creates a job if and only if no retained job has the key |
| `JobRuns.GoneIffPruned` | src/jobs.rs:937-946 | a retained job is gone from a later point of a run if and only if some prune before it took the job |
| `JobRuns.KeyReusableIffPruned` | src/jobs.rs:344-390 | if nothing was submitted under its key since, a submission under it creates a job if and only if some prune took the old one |
| `JobRuns.RequestKept` | src/jobs.rs:362-378 | kind, priority, payload, URL and key never change |
| `JobRuns.DeliveredForever` | src/jobs.rs:585-596 | a delivered callback stays delivered |
| `JobRuns.CallbackStateExact` | src/jobs.rs:551-565 | callback state exists exactly for terminal jobs with a URL; exactly the undelivered ones are listed as pending |
| `JobRuns.UndeliveredIsRetained` | src/jobs.rs:930-960 | an undelivered callback keeps its job retained and listed through every prune until a success is recorded for it |
| `JobExactness.SweepExact` | src/jobs.rs:971-1000 | a sweep changes a job if and only if it is expired; then the record is queued again or failed by its remaining attempts, with the stated lease, time, error and callback, every other field kept |
| `JobExactness.SweepQueues` | src/jobs.rs:1003-1008 | each queue is its old contents followed by its requeued ids in submission order, exactly the expired ones with attempts left |
| `JobExactness.SweepReportExact` | src/jobs.rs:981-999 | each worker is released once per lease it lost; requeued + failed = released; failed jobs are the records as stored |
| `JobExactness.SweepIdempotent` | src/jobs.rs:962-1011 | a second sweep at the same time changes and reports nothing |
| `JobExactness.PruneTakesTheFirst` | src/jobs.rs:917-935 | a job is pruned if and only if it is prunable and fewer than the limit precede it in submission order |
| `JobExactness.PruneLeavesTheRest` | src/jobs.rs:937-946 | all other jobs, all queues and all other keys are unchanged, order kept |
| `JobExactness.PruneReportExact` | src/jobs.rs:947-950 | removed = sum of the per-status counts = drop in the number of jobs, within the limit; the counts stand in rank order, one for each status a victim has, each the number of victims with it |
| `JobExactness.ClaimTakesTheFirst` | src/jobs.rs:641-670 | a claim takes the first compatible job in priority-then-queue order, keeps the order of the rest, and fails if and only if no retained job is claimable by the worker |
| `Preview.PreviewAgreesWithClaim` | src/scheduler.rs:293-312 | a preview (job, worker) is exactly what a claim by that worker returns; there is no preview if and only if no fresh, non-draining worker could claim anything |
| `JobStore.SqliteJobStore.QueuePositions` | src/storage.rs:287-295 | every job gets its place in its own queue, or none |
| `JobStore.SqliteJobStore.ReplaceSnapshot` | src/storage.rs:157-205 | delete and reinsert leaves exactly the rows of the registry |
| `JobStore.SqliteJobStore.SelectOrdered` | src/storage.rs:48-57 | the rows of the table in order of position, creation time and id |
| `JobStore.SqliteJobStore.ReadRows` | src/storage.rs:114-126 | the loop over rows gathers jobs, order, queued entries and the largest number |
| `JobStore.SqliteJobStore.FillQueues` | src/storage.rs:128-138 | sorted entries are dealt to the queues of their priorities |
| `JobStore.SqliteJobStore.CollectKeys` | src/storage.rs:139-146 | the key index covers all keys and points at jobs that carry them |
| `JobStore.SqliteJobStore.LoadSnapshot` | src/storage.rs:42-155 | a load of any table is one of its readings: jobs, order, queues by position, keys, largest number |
| `JobStore.LoadOrder` | src/storage.rs:48-57 | the order a load gives to any table, and to its queues, in positions, times and ids |
| `JobStore.LoadInvertsReplace` | src/storage.rs:42-205 | load after replace is the identity on jobs, order, queues and keys of every valid registry, with `nextId` the largest retained number |
| `JobStore.RestoredWellFormed` | src/storage.rs:114-154 | what is restored satisfies the invariant and writes the same table again |
| `JobStore.NextIdSurvivesIffNewestRetained` | src/storage.rs:116 | `nextId` survives a restart if and only if the newest job is still retained; otherwise a pruned id can come back |
| `JobStore.LargestIsUnique` | src/storage.rs:62-116 | the restored number is determined by the table: the largest among the retained identifiers |
| `Restarts.RestartIsSweepIffNewestRetained` | src/jobs.rs:323-337 | a restart equals a sweep if and only if the newest identifier is retained |
| `Restarts.LifeIsRun` | src/jobs.rs:323-337 | a life with restarts that each find the newest identifier retained is an ordinary run with each restart a sweep |
| `Restarts.RetainedIsKept` | src/storage.rs:116 | a restart keeps the number of every job it finds retained |
| `Restarts.LifeStep` | src/jobs.rs:323-1011 | one operation or restart as one job sees it: the invariant is kept, a record evolves, an issued identifier whose number is kept is not given out again |
| `Restarts.TerminalAcrossRestarts` | src/jobs.rs:732-870 | a terminal record stays frozen through every life whose restarts keep the number of its own identifier |
| `Restarts.FrozenIffNumberKept` | src/jobs.rs:732-870 | a terminal record is safe at every point of a life, whatever operations might have followed there, if and only if every restart keeps the number of its identifier |
| `Restarts.AttemptsAcrossRestarts` | src/jobs.rs:652-664 | no attempt of a job is granted twice in a life whose restarts keep the job's number or find it never granted |
| `Restarts.FencingAcrossRestarts` | src/jobs.rs:742-756 | under that condition a report carrying attempt `a` changes the job only if `a` is current, was granted in the life to that worker and to no other, and the lease has not expired |
| `Restarts.FencedIffAttemptsKept` | src/jobs.rs:652-664 | from an empty registry no attempt of a job is granted twice, at any point and whatever operations might have followed, if and only if that condition holds |
| `Restarts.ReissuedIffNewestPruned` | src/storage.rs:116 | the first job created after a restart takes an identifier issued before it if and only if the newest was not retained |
| `Restarts.PrunedIdComesBack` | src/storage.rs:116 | a concrete life that shows it: submit, cancel, prune, restart, and the next submission runs under the identifier of the cancelled job |
| `Sorting.SortBySorts` | src/storage.rs:129-131 | sorting yields an ordered sequence with the same elements |
| `Workers.WorkerRegistry.Register` | src/workers.rs:131-163 | a valid registration keeps slots in use, draining mark and registration time of a known worker, and replaces the rest; an invalid one changes nothing |
| `Workers.WorkerRegistry.TryAcquireSlot` | src/workers.rs:181-203 | refusals in the order stale, draining, at capacity; otherwise one more slot in use |
| `Workers.WorkerRegistry.ReleaseSlot` | src/workers.rs:205-210 | one slot fewer, never below zero |
| `Workers.WorkerRegistry.Heartbeat` | src/workers.rs:165-171 | only the observation times move |
| `Workers.WorkerRegistry.Drain` | src/workers.rs:212-217 | only the draining mark is set |
| `Workers.WorkerRegistry.Reactivate` | src/workers.rs:219-226 | the mark is cleared and the worker counts as seen |
| `Workers.WorkerRegistry.Deregister` | src/workers.rs:228-243 | an idle worker is removed, a busy one starts draining |
| `Slots.StepKeepsSlots` | src/scheduler.rs:50-243 | each atomic step of each handler keeps: slots in use = leases held + slots taken and not yet leased + releases owed, for every worker |
| `Slots.SlotsConserved` | src/scheduler.rs:50-243 | slot conservation after any interleaving of claims, renewals, completions, failures, cancels, sweeps, registrations, drains, deregistrations, submissions, prunes and callbacks |
| `Slots.ThreadStepConserves` | src/scheduler.rs:54-92 | one handler step moves slots between count, leases and debt and loses none |
| `Slots.ReleaseNeverSaturates` | src/workers.rs:205-210 | a release due finds its worker registered with at least that slot, so `saturating_sub` subtracts exactly one |
| `Slots.UnregisteredHoldsNothing` | src/workers.rs:228-243 | a worker that is not registered holds no running job and nothing is owed to it |
| `Slots.LimitBrokenIffLowered` | src/workers.rs:131-163 | a worker within its maximum leaves it if and only if the step is a re-registration lowering the maximum below its use |
| `Slots.LoweringBreaksTheLimit` | src/workers.rs:131-163 | a concrete run from an empty process: register with a maximum of two, two claims take a slot each, register with a maximum of one |
| `Slots.LeasesWithinMaximum` | src/workers.rs:181-203 | unless lowered so, a worker never holds more leases than its maximum |
| `SlotLedger.ClaimSettledOnce` | src/scheduler.rs:54-92 | per accepted claim: its grant is made once, and by any point of a run its lease has ended exactly once or is still held |
| `SlotLedger.SlotsAccounted` | src/scheduler.rs:50-243 | over every run, per worker: acquired = granted + came empty + waiting; granted = ended + held; ended + came empty = released + owed |
| `SlotLedger.AcquiredIsReleasedOrHeld` | src/workers.rs:181-210 | over every run: acquired = released + held + debt, and slots in use = acquired - released |
| `SlotLedger.OwedStep` | src/scheduler.rs:141-233 | in every step the releases owed fall by the release performed and rise by the leases that end and the claims that come empty |
| `SlotLedger.LeasesUnderEvent` | src/jobs.rs:633-1011 | under every registry operation the leases of a worker are those before, less those it ends, plus the one it grants |
| `SlotLedger.GrantSettled` | src/jobs.rs:652-1000 | over registry runs: times granted, or held at the start, = times ended + still held |
| `SlotLedger.GrantedOnce` | src/jobs.rs:652-664 | no grant is made twice |
| `SlotLedger.EndsAreGrants` | src/jobs.rs:652-1000 | the leases that an operation ends are those of the grants that end in it, one each |
| `SlotLedger.SystemIsRun` | src/scheduler.rs:50-243 | what the handlers do to the registry is a run of registry operations |
| `Circuit.CircuitBreaker.IsAvailable` | src/router/circuit.rs:45-62 | answers by state and cooldown; an open circuit past its cooldown goes half-open and no other changes |
| `Circuit.CircuitBreaker.RecordSuccess` | src/router/circuit.rs:64-67 | closes the circuit and clears the count from any state |
| `Circuit.CircuitBreaker.RecordFailure` | src/router/circuit.rs:71-78 | counts, and opens now once the threshold is reached |
| `Circuit.AvailabilityIsHistory` | src/router/circuit.rs:45-78 | for every sequence of calls under a monotone clock: available if and only if fewer than max(1, threshold) failures trail the last success or the cooldown has passed since the last failure |
| `Selector.BeforeIsStrictTotalOrder` | src/router/fallback.rs:116-144 | the rank comparison is a strict total order on indexes, consistent both ways round |
| `Selector.AskCircuit` | src/router/fallback.rs:106 | one circuit is asked under its lock, others going ahead before: the answer and the half-opening are those of the circuit as it then stands |
| `Selector.AvailableOf` | src/router/fallback.rs:101-109 | the candidates that answered they are available, each in range asked, with other requests between any two questions |
| `Selector.MinByRank` | src/router/fallback.rs:111-114 | the least of them |
| `Selector.BestAvailable` | src/router/fallback.rs:96-114 | the least of the candidates that answered yes, or none if and only if none did; candidates out of range are skipped |
| `Selector.SelectBackend` | src/router/fallback.rs:39-94 | under any interference: every eligible backend of the tiers down to the chosen one is asked, once, and no other; the choice is the least of those that answered yes under tier, rank, index, or none if and only if none did |
| `Selector.EarlierTiersRefused` | src/router/fallback.rs:49-93 | every eligible backend of an earlier tier, or any at all when there is no choice, was asked and refused |
| `Selector.InstantIsBest` | src/router/fallback.rs:39-94 | at one instant with nobody else about, the selection is the least available eligible index, or none if there is none, and its only effect is open to half-open on the circuits asked |
| `Selector.BestIsUnique` | src/router/fallback.rs:39-94 | that optimum is unique |
| `Selector.TierDecides` | src/router/fallback.rs:49-93 | a tier with a yes yields the choice; one that refused makes the next due |
| `Selector.FailedSelectionChangesNothing` | src/router/fallback.rs:49-94 | at one instant a selection that finds nothing changes no circuit |
| `Selector.RefusalChangesNothing` | src/router/circuit.rs:47-62 | a circuit that refuses is left as it was |
| `Selector.ProbeTwice` | src/router/circuit.rs:45-62 | asking twice at one instant is asking once; only an open circuit past its cooldown changes, and only to half-open |
| `Proxy.ResourceSelection` | src/proxy/mod.rs:762-804 | ineligible are exactly the backends without a fresh report or enough memory; the others carry their rank |
| `Proxy.SelectionIneligible` | src/proxy/mod.rs:719-727 | the union of two exclusion lists, duplicates avoided |
| `Proxy.SelectionIneligibleWithPool` | src/proxy/mod.rs:729-741 | the union with the pool's exclusions |
| `Proxy.CandidateCounts` | src/proxy/mod.rs:695-717 | the counts are the numbers of fit and of resource-blocked backends whose turn it is |
| `Proxy.SelectForRoute` | src/proxy/mod.rs:559-654 | under any interference: the pools in order, each before the last asked in full and refused, in the last the selector's choice, or none once all refused; one decision recorded per pool tried |
| `Proxy.PassedPoolRefused` | src/proxy/mod.rs:570-618 | in a pool passed over every usable, unattempted backend was asked and refused |
| `Proxy.RouteChoiceMeans` | src/proxy/mod.rs:559-654 | the choice is usable, unattempted and answered yes; without a choice every usable, unattempted backend was asked and refused |
| `Proxy.InstantRouteIsBest` | src/proxy/mod.rs:559-654 | at one instant with nobody else about, the choice is the least ready backend under pool, tier, rank, index, or none if there is none; circuits change only by half-opening on the way |
| `Proxy.PoolDecides` | src/proxy/mod.rs:570-618 | at one instant the first pool with an answer gives the choice; a pool without one changes nothing |
| `Proxy.RouteBestIsUnique` | src/proxy/mod.rs:559-654 | that choice is unique |
| `Proxy.Forward` | src/proxy/mod.rs:138-433 | with other requests acting on the circuits between any two steps and any two questions: no backend is sent to twice and at most as many sends as backends; each send is the choice of a selection with the earlier ones excluded; it fails only when the last selection was refused everywhere; each failed send makes one `record_failure` on its own circuit, success one `record_success`; affinity goes to the backend that answered; when no other request interferes, the circuits end exactly where these steps bring them |
| `Proxy.UnsupportedIffNoneAllowed` | src/proxy/mod.rs:806-818 | "unsupported" is reported if and only if there are backends and the route allows none |
| `Callbacks.CallbackDispatcher.MarkInFlight` | src/callbacks.rs:57-62 | inserts, and says whether it was new |
| `Callbacks.CallbackDispatcher.ClearInFlight` | src/callbacks.rs:64-69 | removes |
| `Callbacks.CallbackDispatcher.Dispatch` | src/callbacks.rs:38-55 | spawns a task exactly when the job was not in flight: the dispatch of the interleaved system |
| `Callbacks.CallbackDispatcher.RunTask` | src/callbacks.rs:51-54 | a spawned task delivers and then leaves the set, ending finished in the interleaved system whatever the others do |
| `Callbacks.CallbackDispatcher.DispatchPending` | src/callbacks.rs:72-88 | a recovery pass dispatches every job that was awaiting delivery when it began, with any moves of others in between |
| `Callbacks.DeliverCallback` | src/callbacks.rs:118-202 | the attempt loop over the shared registry refines a task of the interleaved system under every interleaving of the other moves: at most max(1, max_attempts) posts, none after a success, registry and dispatcher as that system has them |
| `Callbacks.StepKeepsDelivery` | src/callbacks.rs:38-202 | every dispatch, task step and registry operation keeps the delivery invariant |
| `Callbacks.MovesKeepDelivery` | src/callbacks.rs:38-202 | the delivery invariant over every further sequence of moves from any system in order |
| `Callbacks.RunKeepsDelivery` | src/callbacks.rs:38-202 | the delivery invariant after any interleaving |
| `Callbacks.OneTaskPerJob` | src/callbacks.rs:38-55 | at most one unfinished delivery task per job, at most max(1, max_attempts) posts per task |
| `Callbacks.AttemptsAreCounted` | src/callbacks.rs:127-130 | a job's attempt counter grows by exactly the attempts begun for it |
| `Callbacks.SuccessRecordedOnce` | src/callbacks.rs:146-156 | success is recorded at most once per job and no attempt begins after it |
| `Callbacks.PostedJobAwaits` | src/callbacks.rs:127-144 | while a post is out its job is retained, terminal and undelivered |
| `PriorityPermits.PriorityBucket.TryAcquireOwned` | src/priority.rs:88 | takes a permit if one is left |
| `PriorityPermits.PriorityBucket.FetchAdd` | src/priority.rs:89 | the counter goes up by one, wrapping |
| `PriorityPermits.PriorityBucket.FetchSub` | src/priority.rs:97-101 | the counter goes down by one, wrapping |
| `PriorityPermits.PriorityBucket.ReturnPermit` | src/priority.rs:23-26 | the permit goes back |
| `PriorityPermits.PriorityBucket.TryAcquire` | src/priority.rs:87-95 | the procedure under every interleaving of other callers: the caller ends counted or refused and the bucket as the interleaved system has it |
| `PriorityPermits.PriorityBucket.Drop` | src/priority.rs:97-101 | the same for dropping the permit: counter first, then semaphore |
| `PriorityPermits.StepKeepsPermits` | src/priority.rs:87-101 | each atomic step keeps: permits available + held = limit, counter = counted holders |
| `PriorityPermits.LimitHolds` | src/priority.rs:87-101 | after any interleaving: in flight <= permits held <= limit, and the limit is as configured |
| `PriorityPermits.CounterNeverWraps` | src/priority.rs:89-99 | each increment and decrement moves the counter by exactly one |
| `PriorityPermits.RefusedIffFull` | src/priority.rs:88 | a caller is refused if and only if its own bucket has as many holders as its limit |
| `PriorityPermits.BucketsAreIndependent` | src/priority.rs:63-69 | a bucket and its callers go through the same states as if the callers of the other priorities had made no step |
| `PriorityPermits.DrainedIsFresh` | src/priority.rs:97-101 | once nobody holds a permit the bucket is as new |
| `JobEffects.SubmitEffect` | src/jobs.rs:339-391 | a key that answers for a job gives that job for the same kind, priority, payload and trimmed URL, and a rejection otherwise; any other submission creates a queued job with three attempts, every field given, at the end of the order and of its own queue alone |
| `JobEffects.SubmitRefused` | src/jobs.rs:339-342 | a complaint about the URL comes first, then one about the key; nothing changes |
| `JobEffects.TrimCuts` | src/jobs.rs:1097 | trimming cuts white space and nothing else, at the two ends, and leaves none there to cut |
| `JobEffects.WhitespaceIs` | src/jobs.rs:1097 | what counts as white space: these 25 code points |
| `JobEffects.Utf8Counts` | src/jobs.rs:1121 | the length of a text in bytes adds up over its code points, one to four bytes each by its value |
| `JobEffects.KeyNormalized` | src/jobs.rs:1113-1125 | a key is accepted if and only if something is left after trimming and that is at most 256 bytes |
| `JobEffects.UrlNormalized` | src/jobs.rs:1093-1102 | a URL is accepted if and only if something is left after trimming |
| `JobEffects.ClaimChoice` | src/jobs.rs:641-651 | a claim finds nothing if and only if no queued job is of a kind and pool the worker may take; otherwise its job is such a one, no such job has a higher priority (realtime over batch over background), and none stands before it in the queue of its own priority |
| `JobEffects.ClaimEffect` | src/jobs.rs:652-667 | the claimed record runs under the lease (worker, attempts + 1, now, now + duration), results cleared; it alone leaves its queue, and no other record, queue or key moves |
| `JobEffects.KindNames` | src/jobs.rs:29-37 | the names under which the pool policy knows the kinds of job |
| `JobEffects.RenewEffect` | src/jobs.rs:680-718 | refused, in this order, for an unknown job, one not running, another worker, an expiry not after now; otherwise the lease expires at now + duration and nothing else but the update time changes |
| `JobEffects.CompleteEffect` | src/jobs.rs:720-776 | field by field: acknowledged, refused in order, or completed with this result under the current attempt, its callback fresh and due |
| `JobEffects.FailEffect` | src/jobs.rs:778-846 | under a live lease, retryable and below max_attempts: queued again at the end of its own queue with the error kept; otherwise failed under the current attempt, callback fresh and due, queues unchanged; without a live lease acknowledged or refused in order |
| `JobEffects.CancelEffect` | src/jobs.rs:848-870 | takes effect on queued and running jobs alone: the lease stays on the record, the callback is fresh and due, and the job leaves the queue it was in |
| `JobEffects.SweepEffect` | src/jobs.rs:971-1000 | a running job whose lease has expired by now is queued again below max_attempts and failed otherwise, with the timeout error; every other record is as it was |
| `JobEffects.PrunableExactly` | src/jobs.rs:921-934 | a prune may take a job ended for at least the retention time, counted from its last update, that has no URL or a delivered callback |
| `JobEffects.KeptExactly` | src/jobs.rs:921-933 | it counts as kept for its callback a job as old that has a URL and no delivered callback |
| `JobEffects.RetainedCount` | src/jobs.rs:917-933 | the number reported as kept is that of those jobs that fewer than the limit of prunable jobs precede |
| `JobEffects.CountsOrder` | src/jobs.rs:947-950 | the per-status counts stand in the order complete, failed, cancelled |
| `JobEffects.PendingListed` | src/jobs.rs:551-565 | listed as pending, in submission order, are exactly the ended jobs with a URL whose callback is pending |
| `JobEffects.BeginEffect` | src/jobs.rs:567-583 | an attempt begins exactly for an ended job with a URL and a pending callback; its counter rises by one and the time is noted |
| `JobEffects.SuccessEffect` | src/jobs.rs:585-596 | a success leaves the callback delivered now with its status and no error, attempts kept |
| `JobEffects.FailureEffect` | src/jobs.rs:598-615 | a failure leaves a pending callback with this status and error, and nothing else |
| `WorkerEffects.SnapshotMeans` | src/workers.rs:414-444 | stale from `stale_after` on; free slots are the maximum less those in use, none while draining, and unlimited without a maximum |
| `WorkerEffects.AcquireEffect` | src/workers.rs:181-203 | a slot is given if and only if the worker is registered, was seen less than `stale_after` ago, is not draining and is below its maximum; a refusal names the first that fails and changes nothing |
| `WorkerEffects.CallEffects` | src/workers.rs:165-243 | release, heartbeat, drain, reactivation and deregistration in the fields they change, of that worker alone, none of an unknown one |
| `WorkerEffects.RegisterEffect` | src/workers.rs:367-412 | what is accepted, and every field of the entry: those of the request trimmed, those of a known worker kept |
| `WorkerEffects.PreviewChoice` | src/scheduler.rs:293-312 | the preview names a queued job that some worker suits, none such more urgent and none before it in its own queue, with the first worker that suits it; nothing if and only if no worker suits any queued job |
| `WorkerEffects.SuitsMeans` | src/scheduler.rs:299-303 | a worker suits a job when it is fresh, not draining, takes the kind, and its pool may run it |
| `HandlerRuns.HeardReport` | src/scheduler.rs:95-227 | under any interleaving: a renewal, completion or failure whose worker is registered and fresh when looked up makes one sweep and then its own operation, with its worker, job, attempt and content, and nothing after |
| `HandlerRuns.UnheardReport` | src/scheduler.rs:178-188 | under any interleaving: a report whose worker is unknown or stale then, or a failure without a message, never reaches the registry |
| `HandlerRuns.ReportAloneEvents` | src/scheduler.rs:127-172 | with nobody else about, the operations seen by the registry are exactly the sweep and the report, or none and the registry is unchanged |
| `HandlerRuns.ClaimRuns` | src/scheduler.rs:50-93 | under any interleaving: a claim sweeps, then claims for the worker as it was when given a slot, or does not claim when it is not given one |
| `HandlerRuns.CancelRuns` | src/jobs.rs:1067-1091 | under any interleaving: a cancel makes its one operation and no other |
| `HandlerRuns.CallAlone` | src/scheduler.rs:50-243 | a call stepped through with nobody else about ends where its handler, written in one piece, ends: registry, workers, and every slot released |
| `HandlerRuns.OutsideSteps` | src/workers.rs:131-243 | every other call on the workers and every operation that touches no lease may come between, with its full effect |
| `RoutingEffects.ChosenByRank` | src/router/fallback.rs:116-144 | among the backends that said yes, an earlier tier wins, then a ranked backend, then a known load, then the lower load, then the larger free memory, then the lower index |
| `RoutingEffects.TierMeans` | src/router/fallback.rs:49-93 | the tiers: on the node of origin, else preferred, else the rest |
| `RoutingEffects.AskedMeans` | src/router/fallback.rs:49-109 | asked are exactly the backends that are neither excluded nor ineligible, down to the tier of the choice |
| `RoutingEffects.YesMeans` | src/router/circuit.rs:45-62 | a circuit says no exactly while it is open and its cooldown has not passed |
| `RoutingEffects.UsableMeans` | src/proxy/mod.rs:545-557 | usable: the route's pool, the pools of the workload and the workloads of the backend allow it, and it is not ineligible |
| `RoutingEffects.FitnessMeans` | src/proxy/mod.rs:778-800 | ranked exactly when its node has a report for it with at least the required memory |
| `RoutingEffects.TurnMeans` | src/proxy/mod.rs:695-717 | who is counted as a candidate and who as blocked in a pool's turn |
| `RoutingEffects.RouteChoiceByRank` | src/proxy/mod.rs:559-654 | the choice of a route lies in the last pool asked and beats every other backend there that said yes: by origin, preference, load, memory and index of this very request |
| `RoutingEffects.ReasonMeans` | src/proxy/mod.rs:820-832 | which reason is given when nothing could be tried |
| `RoutingEffects.FailedSend` | src/proxy/mod.rs:259-380 | a connection error, or an answer of 500 to 599 on a retrying route, is one failure on that backend's own circuit and no success; as the last send it is the outcome and nothing is remembered |
| `RoutingEffects.AnsweredSend` | src/proxy/mod.rs:331-433 | any other answer is the last send and the outcome, the one success, on its own circuit, and takes the affinity key |
| `RoutingEffects.OutcomeMeans` | src/proxy/mod.rs:138-433 | a completed request on a retrying route did not end with 500 to 599; completed, failed and unavailable are told apart by the last reply and by whether anything was sent |
| `RoutingEffects.GivesUpWhenAllRefuse` | src/proxy/mod.rs:295-330 | a request that ends without an answer has just been refused by every backend it could still use |
| `DeliveryRuns.DeliveryAlone` | src/callbacks.rs:118-202 | a delivery with nobody else about posts until one succeeds or max(1, max_attempts) are made, counts each, and leaves the last reply on the record as what it was; then the job is no longer in flight |
| `DeliveryRuns.BeginsPost` | src/callbacks.rs:127-134 | a task posts if and only if its job has ended, has a URL and a pending callback; the attempt is counted first |
| `DeliveryRuns.RecordsReply` | src/callbacks.rs:146-196 | a success, a refusal and an error are each recorded as that, and the task goes on exactly while attempts are left and none succeeded |
| `DeliveryRuns.OtherMovesMean` | src/callbacks.rs:38-69 | a dispatch starts a task for a job not in flight and nothing otherwise; any other registry operation may come between |

## Left out

- Jobs.JobRegistry.Submit: requires `nextId` below 2^64 - 1; the overflow of the counter is not modelled.
- Jobs.JobRegistry.WithStore: requires the table of a valid registry, which every operation leaves behind; a table edited by hand is covered only by `LoadSnapshot`.
- Jobs.JobRegistry.BeginCallbackAttempt: does not model overflow of the 32-bit attempt counter.
- Circuit.CircuitBreaker.RecordFailure: does not model overflow of the 32-bit failure counter.
- Selector.MinByRank: the loads compared are reals, not floating point.
- Proxy.Forward: the fallback reason and the metrics and log records of a request are not modelled; connection errors and retried server errors share one branch because they differ only in what they report.
- PriorityPermits.PriorityBucket.TryAcquireOwned: the semaphore is a count; its fairness and wakers are not modelled.
- Callbacks.DeliverCallback: deadlines and delays between attempts are not modelled, a timeout being one of the failed replies.
- Restarts.FrozenIffNumberKept: lives in which a restart finds the counter beyond 64 bits are not covered.
- Restarts.FencedIffAttemptsKept: the same, and the only-if half is for lives that begin with an empty registry.
- Slots.SlotsConserved: one process run that starts with no workers and no running job, with every handler run to completion or simply never stepped again.
- Store writes that fail, and the memory that is then ahead of the table.
- SQLite itself, schema and migrations, JSON columns, and times that do not fit a signed 64-bit integer.
- HTTP: routing, headers, status codes, streaming, priority parsing.
- The affinity map, resource reporting and staleness, health probing: their answers are parameters.
- Listings, queue and duration snapshots, candidate counts per worker, metrics, configuration parsing.
- Poisoned locks, panicking tasks and dropped handler futures.
