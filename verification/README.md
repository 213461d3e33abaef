# messgr: verified models

messgr sends messages for tenants: producers hand requests to an ingest service,
a dispatcher claims queued rows from a transactional outbox and sends them, and
periodic jobs reconcile receipts, quotas and storage. This project models the
parts of it whose correctness depends on interleavings, clocks or hidden state,
and proves what they promise for all inputs and all runs.

| file | what it models |
|---|---|
| `KillSwitch.dfy`, `SwitchCache.dfy` | switch matching in its three forms; the refreshed cache and its deltas |
| `HoldProtocol.dfy`, `HoldSafety.dfy`, `SwitchHistory.dfy`, `TickRace.dfy` | engage, release, refresh tick, claims and drains as one machine; hold safety; delta histories; the gap inside a tick |
| `HeldCalls.dfy`, `HeldRace.dfy` | that machine joined with the delivery machine: hold safety of provider calls, and the calls that remain |
| `DrainRegistry.dfy`, `ReleaseDrain.dfy` | the refresh callback and claim exclusion; the end of a release |
| `Drain.dfy`, `DrainWorld.dfy`, `Discard.dfy`, `Postponing.dfy` | drain and discard loops, when they end, alone and among others; what the deferring gates can do to them |
| `Outbox.dfy`, `Gates.dfy` | the queue and ledger statements; the worker's gate chain and backoff |
| `Delivery.dfy`, `DeliverySafety.dfy`, `Attempts.dfy` | a message's life from ingest to receipt as one machine; ledger invariant, send bound, cancellation; what attempts count |
| `SweepSafety.dfy`, `SweepBound.dfy`, `SweepRace.dfy` | when a lease sweep can lead to a second send, and to how many |
| `Receipts.dfy`, `Promoters.dfy` | the status lattice and the orphan reconcile; many promoters at once |
| `Quota.dfy`, `QuotaRestart.dfy`, `QuotaTracker.dfy` | rolling windows, restart by flush and rebuild, the tracker |
| `QuietHours.dfy` | the end of a quiet window in any zone |
| `Customers.dfy`, `CustomerSafety.dfy`, `CustomerCalls.dfy`, `Aliases.dfy` | concurrent resolution and data keys as one machine; the same calls as code with interference; alias walk and closure |
| `Partitions.dfy` | monthly partition names and lifecycle |
| `Template.dfy` | placeholder substitution |
| `Base.dfy` | names shared by all |

Conventions. A SQL statement or transaction is one atomic step. Time is a
parameter. Answers of the outside world (gates, providers, failing writes,
random draws, zone data) are parameters, so every theorem covers every answer.
Concurrent protocols are machines over their atomic steps: `Run` holds of a
sequence of states and steps from the start, and the theorems are about every
run. Objects the program updates in place are classes whose methods are proved
against functions of their old state.

## Findings

Thirteen promises hold only under a condition. Each has a concrete counterexample
and the exact condition:

- A refresh tick is not atomic: the cache lock is dropped before the callback
  registers a released switch as draining. A claim whose two reads both fall in
  between misses the switch (`HoldSafety.ListExact`, `TickRace.HoldCanLeak`).
- The lease sweep assumes no task holds a row, but drains and discards start
  before leadership is won. A second acceptance of a message can follow exactly
  when the sweep finds it at risk (`SweepSafety.SweepExact`,
  `SweepRace.SweepCanDoubleSend`), and each such sweep allows at most one call
  and one acceptance more; acceptances do reach that bound (`SweepBound.SendBoundAnySweep`,
  `SweepBound.BoundIsMet`).
- A crash between the provider's acceptance and the write leads to a second
  send; the bound grows by the writes lost (`DeliverySafety.SendBound`,
  `SweepRace.CrashCanDoubleSend`).
- Deferrals and crashes use up send attempts: a retryable answer is final once
  calls, deferrals and tasks given up together reach eight
  (`Attempts.RetryEndsExact`, `Attempts.FirstCallIsLast`).
- A claim fails exactly when its picked batch holds a row with 32767 attempts,
  and such a row first in line fails it for ever (`Outbox.Database.Claim`,
  `Outbox.StuckForEver`, `Outbox.LimitRowIsStuck`). A row put off to the past
  gets there (`Attempts.ClimbsToTheLimit`).
- A drain ends exactly when no row it may take is put off to the past for ever
  or stands at that limit (`Drain.DrainReleasedScope`, `Drain.TurnShrinks`,
  `Postponing.AutumnTurnWithoutProgress`,
  `Postponing.SkippedMidnightTurnWithoutProgress`); a discard, when none stands
  at the limit (`Discard.DiscardEngagedScope`).
- Overlapping promoters can replace an absorbing status (`Promoters.LostExact`,
  `Promoters.BounceCanBeLost`).
- A repeated request that lost the claim for its key panics when the key is
  forgotten before it re-reads (`DeliverySafety.LostClaimExact`,
  `DeliverySafety.ClaimCanVanish`).
- A quota override on a key without a daily ceiling introduces one
  (`QuotaTracker.OverrideOnlyRaises`, `QuotaTracker.OverrideCanLower`); the
  comment in the code says overrides only raise.
- The hard quota bound needs calls that never come back to a window they left
  (`Quota.HardBoundExact`, `Quota.BackwardsClockDoubles`).
- The quota defers to the past exactly when the day's limit is used up and
  tomorrow's midnight is missing with the UTC date already there, or the local
  date has been there before (`Quota.DeferIsLater`,
  `Quota.SkippedMidnightDefersToThePast`, `Quota.DateRunBackDefersToThePast`).
- A restart of the tracker goes unnoticed exactly in zones in which no local
  date comes back (`QuotaRestart.RestartExact`, `QuotaRestart.GoingBackShows`).
- A quiet window ending in a repeated autumn hour reschedules into the past:
  exactly when the wall clock had shown its end longer ago than the jitter
  (`QuietHours.EndsLaterHere`, `QuietHours.EndsLaterExact`,
  `QuietHours.FallBackReschedulesIntoThePast`).

## Model

| member | source | states |
|---|---|---|
| `KillSwitch.BuildExclusion` | src/kill_switch/cache.rs:212-244 | The loop over a switch list builds an exclusion that drops a row of the channel exactly when some listed switch matches it. |
| `KillSwitch.ExclusionExact` | src/kill_switch/cache.rs:198-244 | For every switch list and every row, the exclusion blocks the row if and only if one of the switches matches it. |
| `KillSwitch.ScopeSelectsExact` | src/dispatcher/repo.rs:98-156 | The scope query's WHERE clause selects a row if and only if the switch matches it (and the pinned channel, if any, is its channel). |
| `Outbox.ClaimCandidatesExact` | src/dispatcher/repo.rs:31-51 | A claim may take a row if and only if it is queued on the channel, ready, and matched by no switch the exclusion was built from. |
| `Outbox.ScopeCandidatesExact` | src/dispatcher/repo.rs:98-156 | A pinned scope claim may take a row if and only if it is ready, on the channel, matched by its switch and by none of the excluded ones. |
| `SwitchCache.KillSwitchCache.BlockingScope` | src/kill_switch/cache.rs:157-172 | Ingest refuses a request if and only if the dispatcher holding the same cache would exclude its row; platform switches come first and cover everything. |
| `DrainRegistry.Registry.ClaimExclusion` | src/dispatcher/worker.rs:91-104 | The exclusion a channel loop reads blocks exactly the rows under an engaged or a draining switch. |
| `SwitchCache.KillSwitchCache.constructor` | src/kill_switch/cache.rs:56-63 | A new cache is empty and valid. |
| `SwitchCache.KillSwitchCache.RefreshWithPlatform` | src/kill_switch/cache.rs:84-151 | A failed tenant read changes nothing; otherwise cache and delta are those of the rows read, with last-known platform entries carried over when the control database failed. |
| `SwitchCache.KillSwitchCache.CarryOver` | src/kill_switch/cache.rs:84-151 | The carried list is exactly the cached platform entries. |
| `SwitchCache.RefreshedValid` | src/kill_switch/cache.rs:84-151 | Every refresh keeps the cache keyed by id with its platform ids inside it. |
| `SwitchCache.PlatformFailureKeepsPlatform` | src/kill_switch/cache.rs:84-151 | A failed platform read keeps every platform entry unchanged and never reports one released. |
| `SwitchCache.ReplayExact` | src/kill_switch/cache.rs:84-151 | Replaying one delta on the old set gives the new set's ids always, and its rows if and only if no surviving row changed content. |
| `SwitchHistory.DeltasReplayToCache` | src/kill_switch/cache.rs:84-151 | Over every run, whichever reads fail, all deltas folded from the empty set give exactly the active set. |
| `SwitchHistory.FoldFollows` | src/kill_switch/cache.rs:84-151 | Sets that move one delta at a time are the fold of their deltas. |
| `SwitchHistory.ReportedOnce` | src/kill_switch/cache.rs:66-151 | Over every run each id is reported engaged at most once and released at most once, and is cached exactly between the two reports. |
| `DrainRegistry.Registry.OnDelta` | src/bin/dispatcher.rs:283-324 | The callback starts a discard for each newly engaged `discard` switch and, for each released `hold` switch, registers it as draining and starts its drain. |
| `DrainRegistry.Registry.StartDrains` | src/bin/dispatcher.rs:298-323 | Exactly the released `hold` switches are added to the draining map. |
| `DrainRegistry.Registry.StartDiscards` | src/bin/dispatcher.rs:284-297 | Exactly the newly engaged `discard` switches get a discard task, in order. |
| `DrainRegistry.CallbackTakesPending` | src/bin/dispatcher.rs:298-323 | What the callback registers is exactly what the cache swap dropped with `hold`: no released switch is lost or invented. |
| `DrainRegistry.CallbackEnds` | src/bin/dispatcher.rs:298-323 | In any order, the callback run to its end moves every pending switch into draining. |
| `HoldProtocol.StepInv` | src/bin/dispatcher.rs:277-332 | Every step of the protocol (engage, release, the refresh tick's parts, claims, drains) keeps the invariant relating tables, cache, pending, draining and drain phases. |
| `HoldProtocol.RunInv` | src/bin/dispatcher.rs:277-332 | The invariant holds in every state of every run. |
| `HoldProtocol.SwapEntry` | src/kill_switch/cache.rs:84-151 | Every entry of a swapped-in cache is an unchanged row of one of the two tables. |
| `HoldProtocol.SwapDrops` | src/kill_switch/cache.rs:84-151 | A switch leaves the cache only after it was released. |
| `HoldProtocol.SwapAvoids` | src/kill_switch/cache.rs:84-151 | No swap brings back a switch that is on its way out. |
| `HoldSafety.HoldUntilDrained` | src/bin/dispatcher.rs:298-323 | A `hold` switch once engaged stays engaged, pending or draining, with unchanged content, until its drain finishes. |
| `HoldSafety.DrainedEverywhere` | src/dispatcher/drain.rs:162-185 | The exclusion of a switch is lifted only after every channel's drain has, since it was engaged, seen an empty claim or died with its task. |
| `HoldSafety.ListExact` | src/dispatcher/worker.rs:94-104 | A switch held through both reads of a claim iteration is in its list if and only if the reads did not both fall between the cache swap and the callback's insert. |
| `HoldSafety.NormalClaimSafe` | src/dispatcher/worker.rs:458-504 | The normal loop never claims a row under a switch held while its exclusion was read, outside that gap; the two reads are separate steps. |
| `HoldSafety.ClaimHasReads` | src/dispatcher/worker.rs:468-491 | Every claim of the normal loop has its two reads, engaged set first and draining set second, with no claim of that channel in between. |
| `HoldSafety.HoldSafe` | src/dispatcher/worker.rs:458-504 | With atomic ticks: from engagement to the end of the drain no normal claim takes a row under a `hold` switch, over every run and interleaving. |
| `TickRace.HoldCanLeak` | src/bin/dispatcher.rs:305-317 | A concrete run where both reads fall into the gap and the normal loop claims a held row: the tick's atomicity is needed. |
| `HoldSafety.DrainExact` | src/dispatcher/drain.rs:101-154 | Every row a drain claims is ready, of its channel, under the released switch and under none its snapshot saw engaged; a drain's empty claim means every ready row left is under such a switch. |
| `HeldCalls.Projects` | src/bin/dispatcher.rs:277-332 | Every run of protocol and delivery together is, to the protocol alone, one of its runs. |
| `HeldCalls.ClaimsLease` | src/dispatcher/repo.rs:24-66 | Claimed one by one, the rows of a batch end up leased as by the one statement. |
| `HeldCalls.Origin` | src/dispatcher/worker.rs:468-503 | Over every joint run, each task that may call the provider was claimed by a normal loop or a release drain, for a row whose target is the same for as long as it is queued. |
| `HeldCalls.HeldCall` | src/dispatcher/worker.rs:458-504 | Over every joint run, with any sweeps: while a `hold` switch is held, a provider call for a row under it comes only from a normal claim that began reading its exclusion before the switch was seen (or in the gap of a tick), or from a drain that read the engaged set without it. |
| `HeldRace.HeldCallsHappen` | src/dispatcher/worker.rs:458-504 | A concrete joint run with atomic ticks in which both kinds of call happen under one held switch. |
| `Outbox.Database.constructor` | src/dispatcher/repo.rs:1-23 | A new store is empty. |
| `Outbox.Database.Claim` | src/dispatcher/repo.rs:24-66 | Picks at most `limit` candidates, none passed over for a later one, and leases them with their attempts bumped; it fails, with nothing changed, if and only if the picked batch holds a row at the attempts limit. |
| `Outbox.Database.ClaimForScope` | src/dispatcher/repo.rs:78-168 | The same for the candidates of one switch's scope. |
| `Outbox.Database.LeaseBatch` | src/dispatcher/repo.rs:24-168 | The statement behind both claims: the picked batch is leased as a whole, or fails as a whole exactly when a row of it is at the limit. |
| `Outbox.BatchExists` | src/dispatcher/repo.rs:31-51 | A batch in priority order exists for every candidate set and limit. |
| `Outbox.FirstIsPicked` | src/dispatcher/repo.rs:31-51 | A row strictly before every other candidate is in every batch a claim may pick. |
| `Outbox.StuckForEver` | src/dispatcher/worker.rs:468-491 | A row at the attempts limit fails every claim of its channel for as long as it stays first, whatever the time, exclusion and limit of each claim and whatever arrives behind it: no claim takes or changes anything. |
| `Outbox.LimitRowIsStuck` | src/dispatcher/repo.rs:24-66 | A concrete queue of one row at the limit whose claim always fails. |
| `Outbox.Database.RescheduleRetry` | src/dispatcher/repo.rs:262-277 | Frees the row's lease and sets its next attempt; no other row changes. |
| `Outbox.Database.ClearStaleLeases` | src/dispatcher/repo.rs:288-296 | Afterwards a row is ready exactly when its time has come; a second sweep changes nothing; the count is the leases freed, and zero means no change. |
| `Outbox.Database.IsCancelled` | src/dispatcher/repo.rs:302-312 | Tells a cancelled row from a live one and a missing row from both. |
| `Outbox.Database.RecordObserved` | src/dispatcher/repo.rs:231-255 | Adds one event and nothing else. |
| `Outbox.Database.Finalize` | src/dispatcher/repo.rs:320-368 | Event, final status and queue delete in one commit. |
| `Outbox.Database.InsertTransactional` | src/ingest/repo.rs:39-143 | Key, ledger row and queue row together; afterwards every repeat under the key, whatever it carries, is answered with the same request and changes nothing. |
| `Outbox.Database.CancelRequest` | src/ingest/repo.rs:158-190 | Cancels or answers by the final status; repeated, it gives the same answer and changes nothing; no other row and no other producer's row is touched. |
| `DeliverySafety.StepInv` | src/dispatcher/repo.rs:231-368 | Every step of ingest, cancel, claim, gates, send, settle, abandon, sweep and promotion keeps the delivery invariant. |
| `DeliverySafety.RunInv` | src/dispatcher/repo.rs:231-368 | The delivery invariant holds in every state of every run. |
| `DeliverySafety.TablesStep` | src/dispatcher/repo.rs:231-368 | Every step, sweeps over running tasks included, keeps ledger, queue, events and keys in agreement. |
| `DeliverySafety.RunTables` | src/dispatcher/repo.rs:231-368 | So they agree in every state of every run. |
| `DeliverySafety.LedgerMatchesQueue` | src/dispatcher/repo.rs:320-368 | In every reachable state, with any sweeps, a request is queued if and only if its final status is NULL, and an event with a provider reference implies the message has left the queue. |
| `DeliverySafety.FinalisedForGood` | src/dispatcher/repo.rs:320-368 | Once finalised a message stays finalised, out of the queue, and is never claimed again, with any sweeps. |
| `DeliverySafety.NeverSentAgain` | src/dispatcher/repo.rs:320-368 | With the sweep running without tasks no task holds a finalised message and none is sent again. |
| `DeliverySafety.SendBound` | src/dispatcher/worker.rs:381-436 | Over every run, crashes and failed writes included, the calls for a message are at most 8 plus its answers whose write was lost, and its acceptances at most 1 plus the acceptances lost so; while queued with no answer pending, every acceptance was lost. |
| `DeliverySafety.SendBoundNoneLost` | src/dispatcher/worker.rs:401-436 | Over every run that loses no write after a call, one message is handed over at most 8 times and accepted at most once. |
| `DeliverySafety.RecordExact` | src/dispatcher/worker.rs:381-436 | The machine's counters of calls, acceptances and lost answers equal those counted off the run itself, with and without unguarded sweeps. |
| `DeliverySafety.NoCallAfterCancel` | src/dispatcher/worker.rs:381-400 | No provider call follows a cancel that landed before the re-read, in any later state and under any sweep. |
| `DeliverySafety.OneTooLate` | src/dispatcher/worker.rs:386-402 | In every reachable state at most one task per message is between the re-read and the call. |
| `DeliverySafety.OneCallAfterCancel` | src/ingest/repo.rs:158-174 | After an accepted cancel of a queued message at most one call follows, over every continuation, and only by a task that was past the re-read at that moment. |
| `DeliverySafety.CancelAnswer` | src/ingest/repo.rs:158-190 | In every reachable state, with any sweeps, cancel answers not-found exactly for other producers' requests, already-sent exactly for finalised ones not cancelled, and otherwise marks the row. |
| `DeliverySafety.CancelReads` | src/ingest/repo.rs:163-190 | With any steps between its update and its read, a cancel that matched nothing answers its own producer by the final status, which was final at both moments, and never not-found. |
| `DeliverySafety.ProducerKept` | src/ingest/repo.rs:39-143 | A ledger row is never removed and never changes its producer. |
| `DeliverySafety.IngestOnce` | src/ingest/repo.rs:39-143 | Until its key is forgotten, with any sweeps, every repeat of a request is answered with the first one's id and creates nothing. |
| `DeliverySafety.LostClaimExact` | src/ingest/repo.rs:76-86 | A request that lost the claim for its key misses the row it insists on if and only if the key was forgotten in between and not used again since. |
| `DeliverySafety.ClaimCanVanish` | src/ingest/repo.rs:76-86 | A run in which the key is forgotten between claim and re-read. |
| `SweepRace.SweepCanDoubleSend` | src/dispatcher/repo.rs:279-296 | A concrete run where a sweep during a running task leads to two accepted sends of one message. |
| `SweepRace.CrashCanDoubleSend` | src/dispatcher/worker.rs:401-415 | A concrete run with a crash between the provider's acceptance and the write, then a restart: two acceptances, one of them lost. |
| `SweepSafety.SweepExact` | src/dispatcher/repo.rs:279-296 | After any run, some continuation of a lease sweep accepts a message once more than its lost acceptances allow if and only if the message is queued, not cancelled, below the attempts limit, and some task holds it that may still call, has an acceptance to write, or has a retryable answer below eight attempts. |
| `SweepSafety.SweepTames` | src/dispatcher/repo.rs:279-296 | A sweep that puts a message at no such risk leaves it where nothing can be accepted twice. |
| `SweepSafety.TamePath` | src/dispatcher/worker.rs:209-439 | From there the bound holds along every continuation. |
| `SweepSafety.RiskHurts` | src/dispatcher/repo.rs:279-296 | A sweep over a message at risk has a continuation that breaks the bound. |
| `SweepBound.SendBoundAnySweep` | src/dispatcher/repo.rs:279-296 | Over every run with any sweeps, the calls for a message are at most 8, and its acceptances at most 1, plus its answers whose write was lost, plus the sweeps that found its lease in a task's hands. |
| `SweepBound.StepBalanced` | src/dispatcher/worker.rs:209-439 | Every step keeps the books: holders within lease and sweeps while queued, early calls within attempts, late calls and acceptances within the holders left. |
| `SweepBound.BoundIsMet` | src/dispatcher/repo.rs:279-296 | For every number of such sweeps the attempts column has room for, a run that reaches the bound on acceptances. |
| `Attempts.AttemptsExact` | src/dispatcher/repo.rs:24-66 | Over every run a queued row's attempts are its claims, and each claim was a provider call, a deferral or a task given up, or is still undecided. |
| `Attempts.RetryEndsExact` | src/dispatcher/worker.rs:416-436 | A retryable answer ends the message if and only if its calls, deferrals and tasks given up together have reached eight. |
| `Attempts.FirstCallIsLast` | src/dispatcher/worker.rs:416-436 | A concrete run with seven deferrals in which the first provider call is the last. |
| `Attempts.Climbs` | src/dispatcher/worker.rs:458-504 | A row deferred to a time already past can be claimed and put off any number of times up to the limit without a call. |
| `Attempts.ClimbsToTheLimit` | src/dispatcher/worker.rs:458-504 | So it reaches a state in which every claim of its channel fails. |
| `Gates.BackoffBounds` | src/dispatcher/worker.rs:184-194 | A retry delay is between 30 seconds and 45 minutes, its base never shrinks with attempts and is capped from the seventh on. |
| `Gates.Worker.constructor` | src/dispatcher/worker.rs:209-216 | The worker works on the store it is given. |
| `Gates.Worker.TryProcess` | src/dispatcher/worker.rs:209-439 | The imperative gate chain leaves the tables of its specified outcome and reports failure exactly when an error is propagated; the expiry check, the recorded event and the last write each read the clock. |
| `Gates.Worker.TryLater` | src/dispatcher/worker.rs:287-439 | Consent, quota, quiet hours and the send, by their specified verdict. |
| `Gates.Worker.SendUnlessCancelled` | src/dispatcher/worker.rs:381-439 | Cancellation re-read, send, and the write that follows each kind of answer. |
| `Gates.Worker.Block` | src/dispatcher/worker.rs:209-306 | Writes the blocking status, or leaves the row leased when the write fails. |
| `Gates.Worker.Postpone` | src/dispatcher/worker.rs:307-380 | Reschedules the row, or leaves it leased when the write fails. |
| `Gates.WorkerRefines` | src/dispatcher/worker.rs:209-439 | Every worker run, whatever fails in it, is a path of the delivery machine ending in the same tables, so the machine's theorems hold of it. |
| `Drain.WriteWithRetry` | src/dispatcher/drain.rs:38-99 | The write happens if and only if one of five attempts is not refused; otherwise nothing changes. |
| `Drain.OutcomeRetires` | src/dispatcher/worker.rs:209-439 | Whatever the gates, the provider and the database answer, and whatever the clock reads at each write, no other row changes, and the processed row is out of reach at that time if and only if neither a gate nor, the clock having run back, a retry put it off to a time already past. |
| `Drain.HandOn` | src/dispatcher/drain.rs:140-147 | An expired row is written off, any other goes through the worker, exactly as specified. |
| `Drain.ProcessBatch` | src/dispatcher/drain.rs:139-147 | Each row of a batch ends as if it alone had been handed on; the rest of the tables is untouched. |
| `Drain.DrainBatch` | src/dispatcher/drain.rs:107-150 | One turn: the claim fails exactly when its picked batch holds a row at the limit, and changes nothing; an empty claim means nothing is left to take; otherwise each picked row is claimed once and handed on once. |
| `Drain.TurnShrinks` | src/dispatcher/drain.rs:107-153 | A turn never enlarges the backlog, and shrinks it if and only if some row it took is not put off to a time already past. |
| `Drain.DrainReleasedScope` | src/dispatcher/drain.rs:101-154 | Only the scope's ready rows are touched, each by whole claims and hand-overs; an ended drain leaves only rows under a switch its last turn saw; with the engaged set steady and turns enough it ends if and only if no row it may take comes back for ever or stands at the attempts limit, and whatever is engaged meanwhile it ends if no row of the backlog does. |
| `Drain.LoneRowReturns` | src/dispatcher/drain.rs:107-153 | A turn over a lone row that comes back leaves the backlog as it was. |
| `Drain.LoneRowFails` | src/dispatcher/drain.rs:115-136 | With a lone candidate at the limit a turn fails and changes nothing, whatever is engaged. |
| `Drain.OnlyClimbs` | src/dispatcher/drain.rs:107-153 | However many turns it gets, a row that comes back only gains one attempt per turn and stays claimable. |
| `DrainWorld.DrainAmongOthers` | src/dispatcher/drain.rs:101-154 | The loop with the clock, the gates and the engaged set changing from turn to turn and other processes writing in between: each turn is one of the turns specified; when it ends, nothing in the scope was claimable but rows under a switch that turn saw; if no row ever sticks it has ended once its turns exceed the rows that were or became claimable. |
| `DrainWorld.TurnsExplained` | src/dispatcher/drain.rs:101-154 | Over every such drain each turn but the last, empty one is accounted for by a row claimable at the start or since, or by a failed claim or a turn that freed no row. |
| `DrainWorld.NothingWasted` | src/dispatcher/drain.rs:101-154 | If no row sticks at any turn, no claim fails and every turn frees a row. |
| `Postponing.ComesBackExact` | src/dispatcher/worker.rs:307-357 | With quota and quiet hours answering as they do, a deferred row comes back at once if and only if, put off by the quota, the day's limit is used up and tomorrow's midnight past, or, by quiet hours, the wall clock had shown the end of the window longer ago than the jitter. |
| `Postponing.NeverComesBack` | src/dispatcher/worker.rs:307-357 | Where the wall clock never runs back and tomorrow's midnight is ahead, no row is put off to the past. |
| `Postponing.AutumnTurnWithoutProgress` | src/quiet_hours/window.rs:69-86 | A concrete autumn hour, answered by the modelled gates, in which a drain's turn leaves its backlog as it was. |
| `Postponing.SkippedMidnightTurnWithoutProgress` | src/producer_quota/tracker.rs:323-340 | The same with the quota as it answers on the evening before a skipped midnight. |
| `ReleaseDrain.RunReleaseDrain` | src/dispatcher/drain.rs:162-185 | The exclusion is lifted if and only if every channel's drain has ended or died; each channel that ended is, still, left with nothing claimable but rows under a switch its last turn, before the bound on turns, saw engaged; no other switch is lifted. |
| `ReleaseDrain.CoverageKept` | src/dispatcher/drain.rs:162-185 | The drain of one channel never uncovers a row of another. |
| `Discard.DiscardBatch` | src/dispatcher/drain.rs:187-243 | Each row of a batch is written off as discarded, or after five refused writes stays leased. |
| `Discard.DiscardTurn` | src/dispatcher/drain.rs:245-283 | One turn of the discard loop: the claim fails exactly when its picked batch holds a row at the limit; an empty claim means an empty backlog; otherwise each picked row is claimed and written off once. |
| `Discard.DiscardEngagedScope` | src/dispatcher/drain.rs:245-283 | Each row taken went through one claim and one write-off, nothing else changed, and, given the turns, the discard ends with the whole backlog taken if and only if no row of it stands at the attempts limit. |
| `Receipts.AbsorbingWins` | src/orphan_reconcile/reconcile.rs:30-71 | After any receipts the status is the latest absorbing one if there is any; an absorbing status is never replaced by a non-absorbing one. |
| `Receipts.HighestWins` | src/orphan_reconcile/reconcile.rs:30-71 | From no status or an ordered one, ordered receipts end at the highest rank seen. |
| `Receipts.OrderIrrelevant` | src/orphan_reconcile/reconcile.rs:30-71 | Any permutation of ordered receipts ends at the same status. |
| `Promoters.LostExact` | src/orphan_reconcile/repo.rs:128-171 | Over every interleaving of any number of promoters, a write replaces an absorbing status by another kind if and only if its receipt is of another kind and advanced the status its look saw. |
| `Promoters.LostNeedsOverlap` | src/orphan_reconcile/repo.rs:128-171 | An absorbing status is lost only to a promotion between whose look and write an absorbing receipt landed. |
| `Promoters.SerialFolds` | src/orphan_reconcile/repo.rs:128-236 | Promotions that do not overlap, by however many promoters, leave exactly the fold of their receipts. |
| `Promoters.BounceCanBeLost` | src/orphan_reconcile/repo.rs:128-171 | A concrete run of two promoters in which a bounce is replaced by a delivery. |
| `Receipts.LatestExists` | src/orphan_reconcile/repo.rs:72-105 | Whenever an event carries the reference, a latest one exists. |
| `Receipts.Reconciler.constructor` | src/orphan_reconcile/reconcile.rs:189-196 | The reconciler works on the tables it is given. |
| `Receipts.Reconciler.FindMatch` | src/orphan_reconcile/repo.rs:72-105 | Finds the request of the latest event carrying the reference, and none exactly when there is none. |
| `Receipts.Reconciler.Promote` | src/orphan_reconcile/repo.rs:205-236 | Event, advancing status and delete of the pending row in one transaction. |
| `Receipts.Reconciler.RecordMiss` | src/orphan_reconcile/repo.rs:242-261 | One attempt more, deleted at the cap. |
| `Receipts.Reconciler.ReconcileOne` | src/orphan_reconcile/reconcile.rs:198-228 | A listed row is promoted, aged or aged out by its specified fate, with exactly that promotion's effect. |
| `Receipts.Reconciler.Reconcile` | src/orphan_reconcile/reconcile.rs:189-231 | The three counts partition the listed rows; what remains, the events and the ledger are exactly those of one promotion per matched row, each to the latest match. |
| `Receipts.StatusFollowsReceipts` | src/orphan_reconcile/reconcile.rs:233-262 | A pass moves each request's status exactly as its receipts, in order, move the lattice. |
| `Receipts.ReportTotal` | src/orphan_reconcile/reconcile.rs:189-231 | The three counts add up to the rows listed. |
| `Receipts.AgesOutAtCap` | src/orphan_reconcile/repo.rs:242-261 | A fresh orphan that nothing matches, whatever the other tables hold at each pass, is deleted on exactly its cap-th pass. |
| `Quota.MinuteWindow` | src/producer_quota/tracker.rs:297-303 | A minute window contains its instant; the next start is its own window start; starts never go back. |
| `Quota.DayWindow` | src/producer_quota/tracker.rs:304-340 | In any zone: a day window has begun, ends later than now and hands over to the next, each if and only if no missing midnight and no date run back stands in the way as stated. |
| `Quota.MidnightsGrow` | src/producer_quota/tracker.rs:304-340 | Window starts keep the order of their days, whichever midnights are missing and fall back to UTC. |
| `Quota.TomorrowExact` | src/producer_quota/tracker.rs:314-340 | The start of the next day window is later than now if and only if the local date has not been there yet, or, with that midnight missing, the UTC date has not. |
| `Quota.SentExact` | src/producer_quota/tracker.rs:174-295 | After calls that never come back to a window they left, each window's `sent` is exactly what was let through in it. |
| `Quota.InOrderContiguous` | src/producer_quota/tracker.rs:257-340 | Calls in the order of time never come back to a minute window; they never come back to a day window, in all sequences, if and only if no local date comes back in the zone. |
| `Quota.LetThrough` | src/producer_quota/tracker.rs:205-251 | A hard quota lets a call through only with room in both windows. |
| `Quota.HardBound` | src/producer_quota/tracker.rs:174-295 | With a hard quota no minute or day window of any run lets through more than its limit, if the calls never come back to a window they left. |
| `Quota.HardBoundInOrder` | src/producer_quota/tracker.rs:174-295 | Both bounds for every run at non-decreasing times, the daily one in every zone no date of which comes back, missing midnights included. |
| `Quota.HardBoundExact` | src/producer_quota/tracker.rs:257-273 | For given call times every hard limit is kept if and only if the calls never come back to a window they left. |
| `Quota.ReturnDoubles` | src/producer_quota/tracker.rs:257-273 | Coming back to a window lets a limit of one be used twice in it. |
| `Quota.BackwardsClockDoubles` | src/producer_quota/tracker.rs:257-273 | A concrete run where the clock steps back and a limit of one is used twice in one minute. |
| `Quota.DeferIsLater` | src/producer_quota/tracker.rs:221-251 | A deferral is to a later instant, in any zone, if and only if it is not the case that the day's limit is used up and tomorrow's midnight, as the tracker takes it, is already past. |
| `Quota.SkippedMidnightDefersToThePast` | src/producer_quota/tracker.rs:323-340 | A concrete evening before a skipped midnight: the call is put off to three hours ago, and called then, to the same time again. |
| `Quota.SkipsIsGenuine` | src/producer_quota/tracker.rs:323-340 | That zone is a genuine one in which no date comes back. |
| `Quota.DateRunBackDefersToThePast` | src/producer_quota/tracker.rs:314-340 | A concrete evening after clocks went back over midnight: the call is put off to the midnight gone by. |
| `Quota.GoesBackIsGenuine` | src/producer_quota/tracker.rs:323-340 | That zone is a genuine one in which a date comes back. |
| `Quota.DeferredCallAdmitted` | src/producer_quota/tracker.rs:221-251 | In any zone the deferred call made at exactly that time, with no other call between, is admitted if and only if the limits are positive and a minute or day window it shares with the breach has room. |
| `Quota.DeferredWindows` | src/producer_quota/tracker.rs:221-340 | It shares the day of a day breach if and only if tomorrow's midnight is missing and its UTC reading falls on that day; put off to later, and to whole minutes, it never shares the minute. |
| `QuotaRestart.RunKnown` | src/producer_quota/tracker.rs:106-170 | Over any history of calls, flushes and rebuilds, in any zone no date of which comes back, the usage table knows the flushed counts of the live windows. |
| `QuotaRestart.RebuiltIsLive` | src/producer_quota/tracker.rs:106-130 | A tracker rebuilt from a fresh flush rolls to the same counters as the live one. |
| `QuotaRestart.RestartInvisible` | src/producer_quota/tracker.rs:106-170 | After any history ending in a flush, in such a zone, a tracker rebuilt later answers every later call sequence as the live one would. |
| `QuotaRestart.RestartExact` | src/producer_quota/tracker.rs:106-170 | Over all histories, restarts and call sequences no restart shows if and only if no local date comes back in the zone. |
| `QuotaRestart.ReturnShows` | src/producer_quota/tracker.rs:106-130 | Wherever a date comes back, a history of two flushed calls after which the rebuilt tracker defers a call the live one admits. |
| `QuotaRestart.GoingBackShows` | src/producer_quota/tracker.rs:106-130 | A concrete zone in which a restart shows. |
| `QuotaRestart.ShortfallBound` | src/producer_quota/repo.rs:114-178 | A crash loses, in each window, at most what was let through since the last flush, and never invents a send. |
| `QuotaTracker.OverrideEffect` | src/producer_quota/tracker.rs:70-100 | Overrides touch only keys with a base row; a set daily ceiling becomes the highest of base and overrides; an unlimited key gets a ceiling. |
| `QuotaTracker.OverrideOnlyRaises` | src/producer_quota/tracker.rs:94-95 | An override never lowers what a key may send if and only if the key has a daily ceiling or no override. |
| `QuotaTracker.OverrideCanLower` | src/producer_quota/tracker.rs:94-95 | A concrete unlimited key that an override stops. |
| `QuotaTracker.Tracker.constructor` | src/producer_quota/tracker.rs:52-62 | A new tracker has no config and no counters. |
| `QuotaTracker.Tracker.RefreshConfig` | src/producer_quota/tracker.rs:70-100 | Config becomes the base rows with exactly the overrides applied whose validity contains the clock; counters stay. |
| `QuotaTracker.Tracker.CheckAndRecord` | src/producer_quota/tracker.rs:174-255 | Decision and counters are those of the specified check; no other key changes. |
| `QuotaTracker.Tracker.RecordAdmit` | src/producer_quota/tracker.rs:275-295 | Counts like a check without a quota. |
| `QuotaTracker.Tracker.Flush` | src/producer_quota/tracker.rs:133-170 | Every tracked key's windows are written, every other row is kept. |
| `QuotaTracker.Tracker.RebuildFromDb` | src/producer_quota/tracker.rs:106-130 | Each key is seeded from its current windows in the table; a window without a row keeps its value. |
| `QuotaTracker.SeededFresh` | src/producer_quota/tracker.rs:106-130 | A fresh tracker's seeding is the rebuild of the restart theorems. |
| `QuietHours.ResolveLocal` | src/quiet_hours/window.rs:69-86 | For any zone the result is the first existing minute step at or after the wall time, within four hours and 241 tries, and none exactly when there is none. |
| `QuietHours.ResolveReschedule` | src/quiet_hours/window.rs:32-67 | The customer's zone, else the tenant's, else the gate is skipped; the end plus the jitter. |
| `QuietHours.QuietEndExact` | src/quiet_hours/window.rs:32-67 | With a constant offset and any policy, wrapping or not, the end is the first instant after now outside the window and at most 24 hours away. |
| `QuietHours.EndsLaterHere` | src/quiet_hours/window.rs:32-86 | For one call in any zone that resolves the times it shows, and any jitter: the message moves to a later time if and only if the wall clock had not shown the end of the window, rounded up over a gap, by as long ago as the jitter. |
| `QuietHours.EndsLaterExact` | src/quiet_hours/window.rs:32-86 | Over all policies, instants and jitters the message moves to a later time if and only if the zone's local clock never runs backwards. |
| `QuietHours.FallBackReschedulesIntoThePast` | src/quiet_hours/window.rs:69-86 | A concrete autumn transition where the end lies in the past and no jitter makes up for it. |
| `QuietHours.AutumnIsFaithful` | src/quiet_hours/window.rs:69-86 | That clock is a genuine one: it resolves every wall time it shows. |
| `CustomerSafety.StepInv` | src/customer/resolve.rs:102-402 | Every statement of every call, an eviction, a failure and a batch provisioning keep the invariant of tables, caches, calls and locks. |
| `CustomerSafety.RunInv` | src/customer/resolve.rs:102-402 | The invariant holds in every state of every interleaving. |
| `CustomerSafety.DirectoryConsistent` | src/customer/repo.rs:148-264 | Always: one address per kind and hash, distinct ranks per customer and kind, no row without its customer, every ciphertext readable under its customer's persisted key. |
| `CustomerSafety.NewRowsOfOthers` | src/customer/repo.rs:148-168 | While a call holds a customer's row lock nobody else adds an address of that customer. |
| `CustomerSafety.RanksStep` | src/customer/repo.rs:148-168 | A rank read under the lock stays above every rank in use until the commit. |
| `CustomerSafety.NoPanic` | src/customer/resolve.rs:102-402 | None of the rows a call expects to find is ever missing, in any interleaving. |
| `CustomerSafety.ResolvedForGood` | src/customer/resolve.rs:192-258 | A completed call's address has, then and ever after, the requested kind and hash, the returned owner, and a ciphertext that opens under the owner's key to a destination of that hash. |
| `CustomerSafety.NamedCustomerServed` | src/customer/resolve.rs:117-258 | A call that finds or adds its customer's address ends with the customer the request names. |
| `CustomerSafety.SameAnswer` | src/customer/resolve.rs:236-257 | Any two completed calls for one destination, in any processes at any times, return the same customer and address. |
| `CustomerSafety.KeyPersisted` | src/customer_dek/lifecycle.rs:57-89 | Whatever key a call or a cache holds is, from that moment on, the unwrap of the one persisted row. |
| `CustomerSafety.KeyAgreement` | src/customer_dek/lifecycle.rs:57-89 | Any two calls holding a key for one customer hold the same key. |
| `CustomerSafety.MintedOk` | src/customer/resolve.rs:339-391 | Customer, address and key committed together keep every table invariant. |
| `CustomerSafety.AddressInserted` | src/customer/repo.rs:232-264 | Adding a free destination with an unused higher rank under the persisted key keeps every table invariant. |
| `CustomerSafety.EndsWithinTwenty` | src/customer/resolve.rs:102-258 | However calls interleave, a call ends after at most twenty steps of its own, an alias row, a cache access and each part of a locking transaction counted singly. |
| `CustomerSafety.NeverStuck` | src/customer/repo.rs:148-157 | A call can always issue its next statement unless it waits for its customer's row lock, whose holder can. |
| `CustomerCalls.Session.GetOrCreateDek` | src/customer_dek/lifecycle.rs:57-89 | With others committing between statements, the key returned is the persisted row's and the cache holds it. |
| `CustomerCalls.Session.FetchDek` | src/customer_dek/lifecycle.rs:68-85 | Find, create, or adopt the winner's row after a lost race. |
| `CustomerCalls.Session.MintCustomer` | src/customer/resolve.rs:267-286 | The customer exists afterwards, whoever inserted it. |
| `CustomerCalls.Session.MintWithExternal` | src/customer/resolve.rs:288-321 | The external id leads to the returned customer, own or winner's. |
| `CustomerCalls.Session.MintWithAddress` | src/customer/resolve.rs:324-402 | The address returned is right, own or winner's, and own exactly when the destination was free with nobody else writing. |
| `CustomerCalls.Session.FindByHmac` | src/customer/repo.rs:92-109 | Finds a row of the destination if and only if there is one. |
| `CustomerCalls.Session.FindForCustomer` | src/customer/repo.rs:111-130 | The same among one customer's rows. |
| `CustomerCalls.Session.NextRankForUpdate` | src/customer/repo.rs:148-168 | One more than the customer's greatest rank for the kind, or 1. |
| `CustomerCalls.Session.ReadWinner` | src/customer/resolve.rs:241-257 | After a lost insert the winner's row is found. |
| `CustomerCalls.Session.AddAddress` | src/customer/resolve.rs:207-257 | With others committing before the rank is read and, barred from this customer's addresses, between it and the commit: adds the address for the customer, or returns the winner's. |
| `CustomerCalls.Session.YieldLocked` | src/customer/repo.rs:148-168 | While the row lock is held others add no address of the customer. |
| `CustomerCalls.StillNext` | src/customer/repo.rs:148-168 | A rank read under the lock stays above every rank in use until the commit. |
| `CustomerCalls.Session.ResolveCustomer` | src/customer/resolve.rs:117-157 | Ends with an existing customer, the one the request names. |
| `CustomerCalls.Session.ResolveByAddress` | src/customer/resolve.rs:158-189 | Address-only resolution: the known row or a minted one. |
| `CustomerCalls.Session.ResolveFor` | src/customer/resolve.rs:192-258 | The named customer's address: found, added, or the winner's. |
| `CustomerCalls.Session.Resolve` | src/customer/resolve.rs:102-258 | Whatever others commit between any two statements, the answer is right, a row this call adds is the named customer's, and alone it adds one exactly when the destination was free. |
| `CustomerCalls.Session.ProvisionOne` | src/customer_dek/lifecycle.rs:113-125 | The id has a key row afterwards; reported created only if it was absent. |
| `CustomerCalls.Session.PreProvisionDeks` | src/customer_dek/lifecycle.rs:102-128 | Every id gets a row and is counted once; a batch of known ids creates nothing; alone, the created count is the number of new rows. |
| `Aliases.ExpandAlias` | src/customer/repo.rs:29-48 | The loop follows at most eight alias rows. |
| `Aliases.ExpandedIsFound` | src/customer/repo.rs:29-75 | In every alias table, cyclic ones included, an id is in the reverse closure of what it expands to. |
| `Aliases.ClosureExact` | src/customer/repo.rs:54-75 | For an id not merged away the closure is exactly the set of ids expanding to it. |
| `Aliases.ExpansionEnds` | src/customer/repo.rs:29-48 | Expansion reaches a canonical id, and is then idempotent, if and only if the chain ends within eight hops. |
| `Partitions.ParseName` | src/partition_lifecycle/repo.rs:8-31 | Parsing undoes naming if and only if the year is 0 to 9999; any other name is skipped. |
| `Partitions.NameParsed` | src/partition_lifecycle/repo.rs:19-31 | Only the name built for a month parses to that month. |
| `Partitions.Catalog.MoveOld` | src/partition_lifecycle/lifecycle.rs:130-140 | Moves exactly the listed partitions that ended at least 18 months ago and are not on the cold tablespace. |
| `Partitions.Catalog.DropExpired` | src/partition_lifecycle/lifecycle.rs:143-153 | Drops exactly the listed partitions past the retention boundary. |
| `Partitions.Catalog.RunTable` | src/partition_lifecycle/lifecycle.rs:117-156 | One table's turn: create ahead, move, drop, with the report of exactly that. |
| `Partitions.Catalog.Run` | src/partition_lifecycle/lifecycle.rs:107-167 | The run over both tables and its report. |
| `Partitions.RunCreatesAhead` | src/partition_lifecycle/lifecycle.rs:117-126 | Whatever was there, a run leaves this month's and the next month's relation present for both tables. |
| `Partitions.RunExact` | src/partition_lifecycle/lifecycle.rs:107-167 | A relation is gone if and only if it is a well-named partition wholly before the retention boundary; otherwise it keeps its parent and is cold exactly when it was or ended 18 months ago. |
| `Partitions.RunTwice` | src/partition_lifecycle/lifecycle.rs:107-167 | A second run in the same month changes and reports nothing. |
| `Partitions.NoGap` | src/partition_lifecycle/lifecycle.rs:107-167 | With a run in every month, each month from the first run on has its partition if and only if no run found it past the retention given to that run and no other relation held its name from the start. |
| `Template.PrintParse` | src/template/render.rs:35-63 | Every body reads into segments that print back to it. |
| `Template.ParseCanonical` | src/template/render.rs:35-63 | Reading always gives a canonical segment list. |
| `Template.ParsePrint` | src/template/render.rs:35-63 | Canonical segments print to a body that reads back to them. |
| `Template.Render` | src/template/render.rs:35-63 | The loop terminates and equals substituting segment by segment: values put in are never read again. |
| `Template.LeftmostError` | src/template/render.rs:35-63 | Rendering succeeds if and only if every key is there and no placeholder is open; otherwise the error is the leftmost one. |
| `Template.OnlyReferencedKeysMatter` | src/template/render.rs:35-63 | Maps agreeing on the referenced keys render alike. |

## Left out

- mTLS, Vault clients, tenant provisioning, HTTP handlers, consoles, CLI parsing: plumbing with little decidable state.
- Configuration, consent, suppression, provider and statistics tables: upserts and queries that would only add easy members.
- OTP and sender disk buffers: their safety depends on file interleavings the program does not control.
- Advisory-lock leader election: a hypothesis, that the sweep runs once after leadership is won.
- Suppression feeding, ciphertext and audit columns of a promotion: the model keeps the event and the status.
- Locales and time zones of a resolved customer: the read is a step, its value is not kept.
- Closing an address (`active_to`): no code sets it, so every stored address is active; a future closer would make the lost-race reads fallible.
- Address ranks past 32767 and the LRU order and expiry of the key cache: ranks are unbounded, eviction may happen at any time.
- Strength of HMAC and AES-GCM: a hash is any function, a ciphertext opens only under its key and associated data.
- Retention of fewer than zero years, and dates beyond the calendar's range: the code panics on both.
- Index moves of a partition, and a crash between its statements: the catalog lists relations, parents and tablespaces only.
- HoldProtocol.RunInv: one dispatcher process; leases, gates and sends are the subject of the delivery machine, and rows may change arbitrarily between steps here.
- HoldSafety.HoldSafe: assumes atomic refresh ticks, because without them it is false (`TickRace.HoldCanLeak`); `HoldSafety.ListExact` is the exact condition.
- HeldCalls.HeldCall: one dispatcher process; a batch's tasks all start with its claim; it says where such calls come from, not that every such claim leads to one.
- HoldSafety.DrainExact: the covering clause assumes a release rate of at least 1, because a limit of 0 makes every claim empty.
- DeliverySafety.SendBound: the sweep runs without tasks, because otherwise it is false; `SweepBound.SendBoundAnySweep` is the bound without that. Leases never expire by time.
- SweepSafety.SweepExact: about one sweep and acceptances; later sweeps run without tasks. `SweepBound.SendBoundAnySweep` bounds calls and acceptances under any sweeps.
- DeliverySafety.RunInv: the sweep runs without tasks, because otherwise two tasks may hold one row; `DeliverySafety.RunTables` is what holds without that. A batch claim is that many single-row claims in a row.
- DeliverySafety.OneCallAfterCancel: the sweep runs without tasks, because otherwise several tasks may be past the re-read; `DeliverySafety.NoCallAfterCancel` needs no such care.
- Attempts.AttemptsExact: the sweep runs without tasks, so that at most one claim of a row is undecided.
- Drain.DrainReleasedScope: one reading of the clock and one set of answers for the whole drain, no rows arriving meanwhile, and at most `fuel` turns where the source has no bound; `fuel` is any number and the ending condition is exact for every one above the backlog. `DrainWorld.DrainAmongOthers` drops the first three.
- DrainWorld.DrainAmongOthers: others write between turns, not within one.
- Discard.DiscardEngagedScope: one reading of the clock, no rows arriving meanwhile and at most `fuel` turns, as for the drain; `Discard.DiscardTurn` is one turn at any time.
- ReleaseDrain.RunReleaseDrain: the channels are drained one after the other, where the source drains them at once; no two share a row.
- Quota.DayWindow: assumes that a midnight that exists is the first instant of its day and less than a day from its UTC reading, as calendar zones have it; the same goes for `Quota.DeferIsLater` and the restart theorems.
- QuotaRestart.ShortfallBound: assumes no local date comes back, because otherwise a rebuilt window may remember more than the live one (`QuotaRestart.ReturnShows`).
- Receipts.Reconciler.Reconcile: rows are taken in any order and one promoter is at work; several are the subject of `Promoters.dfy`.
- Promoters.LostExact: follows the status of one request; the other tables of a promotion are those of `Receipts.dfy`.
- Partitions.NoGap: assumes years 0 to 9999, because outside them names are not read back.
- CustomerCalls.Session.Resolve: others are any function of the tables that only adds rows, keeps them consistent, respects the row lock and never hits on an identifier this call drew.
