# Verification of the panel's credential, admission and accounting protocols

This project models the parts of the panel that keep promises over whole runs, and
proves those promises with Dafny 4.11:

- **Credential rotation, deletion and revocation** (`StateStore`, `RevocationQueue`,
  `RevocationRuns`, `RotationRecovery`, `Credential*`, `DeletionExact`): every write of a state file is a
  step of one machine, every write can fail, land without certain durability or land
  durably, and a power loss may bring any still recoverable version back. Requests, the
  retry thread, hand-offs and crashes interleave freely.
- **Device admission** (`DeviceAdmission`, `DeviceRuns`): the reservation ledger against
  the clients that are really connected and a lagging online count.
- **Reload generations** (`ReloadProtocol`, `ReloadService`): the marker protocol shared by
  Xray and TUIC, with fail-closed stops and recovery.
- **Quota history** (`CodexHistory`, `CodexCollector`): repeated compaction into nested
  buckets, specified without saying how.
- **Password work limiter** (`WorkLimiter`, `WorkLimiterRuns`, `WorkLimiterExact`): sliding
  windows, an LRU cap and idempotent leases, and the bounds for which they keep every
  source to its burst.
- **Alert claims** (`AlertClaims`, `AlertRuns`): claim, delivery outside the lock,
  compare-and-swap completion and clears in every interleaving.
- **Accounting and authorization plans** (`BillingCycle`, `UsageLedger`,
  `AuthorizationPlans`, `UsageRefresh`): cycles, ticks, pruning, three quota evaluators
  proved against one specification, and refresh and reset.
- **Xray clients** (`XrayClients`): the incremental path against the exact rebuild.
- **Clash overlays** (`ClashRules`, `ClashOverlay`): rule-list edits under first-match
  semantics.

Code that changes files and fields in place is modelled by classes and methods with loops;
each method is proved equal to a function of the state before it (or to steps of a
machine), and the promises are lemmas about those functions and about runs of the machines.
`dafny verify dfyconfig.toml` checks everything.

## Where the code does less than its comments say

Each of these is shown by a concrete run or input, and the promise is proved for all inputs
under the condition given.

- *No lost revocation* fails around four decisions, each with a run that loses one. (1) A
  task is dropped, by the retry thread as superseded or by a request after a conflict,
  while an older users.json that a power loss can bring back still shows its token.
  (2) The retry thread takes a rotation for superseded although live receipts lead from the
  token in force to the rotation's own, as they can after a power loss. (3) A task is armed
  for a request id while the retry thread or another request still works on that id for
  an earlier token. (4) The retry thread takes longer than the 300 seconds between the two
  windows from reading the account to giving the task up. `NoRevocationIsLost` holds for
  every run in which each such decision meets its guard (`Calm`), and
  `PrudentRunsLoseNothing` for guards in terms of what a caller knows before the call: that
  the last save of users.json was durable, what the receipts say, and who works on the id.
  `ReadingExact`, `ConflictExact`, `RearmExact` and `PatienceExact` show that each guard is
  exact: a decision that misses it can be continued, with every other decision meeting its
  own, to a lost revocation.
- *A completed deletion is final* fails when a replacement of the same name is found while
  an older users.json that holds the named revision can still come back: that branch does
  not rewrite the file. `SkipExact` shows that it fails exactly then; `CompletedMeansGone`
  is the promise for all other runs, and `CompletedStaysHidden` what holds in every run:
  users.json does not show the revision again until a power loss.
- *The device limit* holds exactly when twice the lag of the count plus the skew of the
  clock readings is at most the 20 seconds a reservation lives (`SafeExactlyWithinHalf`).
  The fallback to an online snapshot up to 20 seconds old is outside that bound.
- *The quota evaluators agree* except that the panel raises on a count or cycle setting
  written with leading zeros, which the other two accept, and that authentication turns away
  a user whose device limit is written with a decimal point (`2.0`), and every metered user
  when the cycle anchor is written without two-digit month and day or when the ledger holds
  a day before the year 1000.
- *Refreshing keeps the server's total* except when the bytes were banked and the days could
  not be zeroed afterwards; the total is then too high by the user's bytes.
- *The full-proxy profile* redirects direct rules by replacing their third field. A rule of
  nested conditions has part of a condition there and is spoiled: the list decides as
  before, with actions redirected, exactly if no such rule before the catch-all is
  rewritten (`RedirectsExactly`). It also redirects a rule whose action is not direct but
  which names something beginning with DIRECT elsewhere (`RedirectedExactly`).
- *The per-source window* holds for every source in every run if and only if the overall
  burst is at most the burst of one source, or smaller than the number of tracked sources
  (`SourceWindowExactly`). The deployed service (3 per source, 20 overall, 1024 sources)
  is within that, so there it always holds (`DeployedBurstsHold`). With other bounds a
  source can be pushed out of the table while its grants still count, and start afresh
  (`EvictionForgets`).

## Model

| member | source | states |
|---|---|---|
| StateStore.JsonFile.WriteAtomic | hysteria/state_store.py:95-124 | the write ends in exactly one of three ways by where it failed; it leaves the old contents, or the new ones with every older recoverable version still recoverable, or only the new ones; no temporary file remains |
| StateStore.WriteVersions | hysteria/state_store.py:95-140 | what a reader may meet now or after a power loss grows by at most the data written, and a durable write leaves nothing else |
| RevocationQueue.Store.Prepare | hysteria/revocation_queue.py:103-166 | arming is idempotent for the same binding, refuses another binding and a 513th task, and otherwise adds one fresh task of 600 seconds, changing no other |
| RevocationQueue.Store.AddStaticServices | hysteria/revocation_queue.py:169-194 | services are added, never dropped, the attempt is pulled forward, and a missing task or an empty request writes nothing |
| RevocationQueue.Store.ClaimDue | hysteria/revocation_queue.py:197-230 | exactly the first due task by next attempt, creation and id is leased, or nothing is written because none is due |
| RevocationQueue.Store.ReleaseClaim | hysteria/revocation_queue.py:233-247 | the lease ends and the next attempt waits at least a second |
| RevocationQueue.Store.CompleteAttempt | hysteria/revocation_queue.py:250-297 | the attempt is recorded, or the task removed when its second successful kick in a row leaves no service to stop |
| RevocationQueue.Store.Discard | hysteria/revocation_queue.py:300-308 | removes just this task, or writes nothing |
| RevocationQueue.FirstDueUnique | hysteria/revocation_queue.py:211-221 | the choice of the next task is deterministic |
| RevocationQueue.PreparedMeans | hysteria/revocation_queue.py:103-166 | arming is refused only for another binding or a full queue; a new task is due at once, lives 600 seconds and counts no kicks, and an armed one is left as it is |
| RevocationQueue.WithServicesMeans | hysteria/revocation_queue.py:169-194 | a task asked for more services waits for exactly those and its own, and is due at once unless leased |
| RevocationQueue.LeasedMeans | hysteria/revocation_queue.py:197-230 | a claimed task is due again exactly 15 seconds later |
| RevocationQueue.ReleasedMeans | hysteria/revocation_queue.py:233-247 | a released task is unchanged but for being due again exactly after the delay, at least a second |
| RevocationQueue.CompletedMeans | hysteria/revocation_queue.py:250-297 | an attempt that does not remove the task leaves it due again exactly two seconds after a successful kick and five after a failed one |
| RevocationRuns.EveryVersionLoadable | hysteria/revocation_queue.py:43-89 | whatever operations ran, saves failed and power was lost, every version of the queue a reader may meet passes its loader and has at most 512 tasks |
| RevocationRuns.HistoryBehind | hysteria/revocation_queue.py:92-308 | behind every such version stands an undisturbed run of operations that happened in that order and whose saves replaced the file |
| RevocationRuns.ExactRetirement | hysteria/revocation_queue.py:148-194 | a recorded attempt removes the task if and only if the last two recorded attempts both kicked and every service was stopped after it was last asked for |
| RevocationRuns.RetirementStored | hysteria/revocation_queue.py:250-297 | the same through failing saves and power losses, for the history behind the version in force |
| RevocationRuns.TaskMatchesLog | hysteria/revocation_queue.py:250-297 | in every run the stored streak and pending services are what the history of requests and attempts implies |
| RevocationRuns.ClaimsSpaced | hysteria/revocation_queue.py:197-247 | two claims of one task without a settling in between are at least 15 seconds apart, whatever saves fail and power is lost between them |
| RevocationRuns.TurnLowersAhead | hysteria/revocation_queue.py:285-291 | claiming and settling another task strictly shrinks the set of tasks ranked ahead of a waiting due task and leaves that task alone; a turn whose saves fail never enlarges it |
| RevocationRuns.DueTaskServed | hysteria/revocation_queue.py:197-247 | a due task is passed over at most queue size - 1 times by turns whose claim was saved and whose settling replaced the file, however many others fail in between |
| RotationRecovery.ReceiptStore.PruneExpired | hysteria/rotation_recovery.py:120-138 | only expired receipts go, and the store is rewritten only when there are some |
| RotationRecovery.ReceiptStore.LookupBound | hysteria/rotation_recovery.py:141-171 | a receipt is returned exactly when it is live and bound to the asking session; expired ones are erased on the way, also when that write fails |
| RotationRecovery.ReceiptStore.Prepare | hysteria/rotation_recovery.py:174-240 | a live receipt is reused only for its own session and old token, otherwise refused; a new one is filed within the cap of 256 |
| RotationRecovery.ReceiptStore.BindReplacementSession | hysteria/rotation_recovery.py:243-281 | only a session already bound can bind another, and at most four stay bound |
| RotationRecovery.ReceiptStore.Discard | hysteria/rotation_recovery.py:284-295 | removes just this receipt, or writes nothing |
| RotationRecovery.OfferedMeans | hysteria/rotation_recovery.py:174-240 | after filing, the receipt is found by that session alone for 300 seconds, or by those it was bound to with its first new token; other receipts are found as before; refusals have just these two causes |
| RotationRecovery.BoundMeans | hysteria/rotation_recovery.py:243-281 | the replacement session then finds the receipt with the same tokens, nobody else newly does, and no session is displaced while fewer than four are bound |
| CredentialSteps.NoRevocationIsLost | hysteria/subscription_service.py:1745-1870 | in every calm run, whenever any recoverable users.json holds a rotation's new token, its task is queued in every recoverable queue or was removed after two successful kicks made for that rotation |
| CredentialSteps.EveryRunKeeps | hysteria/subscription_service.py:2090-2233 | the invariant behind it: accounts, receipts, tasks, their windows, the locked section, the retry thread and the hand-offs stay consistent over every calm run |
| CredentialSteps.PrudentRunsLoseNothing | hysteria/subscription_service.py:2143-2189 | the same for runs in which tasks are dropped only after a durable save of users.json and no live receipts lead to the dropped token, and ids are armed only when nobody works on them |
| CredentialExact.ReadingExact | hysteria/subscription_service.py:2143-2172 | the retry thread may take a rotation for superseded if and only if its token was revoked or no recoverable users.json shows it, and no live receipts lead from the token in force to it; that a missed guard loses a revocation is for states in which every live receipt can be replayed at once |
| CredentialExact.ConflictExact | hysteria/subscription_service.py:1834-1851 | a request that ends in a conflict may drop its task if and only if its token was revoked or no recoverable users.json shows it |
| CredentialExact.RearmExact | hysteria/subscription_service.py:1816-1833 | a request may arm its id if neither the retry thread nor another request works on that id for another token, and one that goes on to install its token only if so |
| CredentialLimits.PatienceExact | hysteria/subscription_service.py:2143-2167 | every calm run keeps all revocations if and only if the retry thread takes at most 300 seconds from reading an account to acting on it |
| CredentialLimits.UncertainCommitLosesRevocation | hysteria/subscription_service.py:2168-2172 | a run that loses a revocation by dropping a superseded task while the file is not certainly durable |
| CredentialLimits.RevertedReadingLosesRevocation | hysteria/subscription_service.py:2168-2172 | a run that loses one by taking a reverted account for a newer one |
| CredentialLimits.ReusedRequestLosesRevocation | hysteria/subscription_service.py:1816-1851 | a run that loses one by arming a request id again while its previous task is being settled |
| CredentialLimits.SlowWorkerLosesRevocation | hysteria/subscription_service.py:2143-2167 | a run that loses one when the retry thread needs 301 seconds: the bound of 300 is tight |
| CredentialReplay.ReplaysAgree | hysteria/subscription_service.py:1736-1910 | once a request was answered, every later answer while the receipt lives, through failures and power losses, is the same token, unless a conflict dropped the receipt |
| CredentialReplay.StepRepeats | hysteria/subscription_service.py:1853-1870 | no single step changes the answer a live receipt stands for, a conflict included whose discard of the receipt failed |
| CredentialReplay.EveryRunFiles | hysteria/rotation_recovery.py:174-240 | in every run each token a request was told is filed, with its expiry, in every recoverable receipt store |
| CredentialReplay.SupersededConflicts | hysteria/subscription_service.py:1834-1851 | a token that no recoverable users.json shows or leads to stays so through every write, failure and power loss, and every request for it ends in a conflict |
| CredentialReplay.SiblingsSuperseded | hysteria/subscription_service.py:1834-1851 | of the tokens drawn to replace one token, the first installed durably supersedes all others |
| CredentialReplay.StepChained | hysteria/subscription_service.py:1745-1870 | receipts and pending requests always replace, for each drawn token, the one token it was drawn to replace |
| CredentialReplay.StepReplaces | hysteria/subscription_service.py:1853-1870 | every version of users.json after a step shows a token already shown, one that replaces such a token, or a new one |
| CredentialDeletion.CompletedMeansGone | hysteria/subscription_service.py:2097-2136 | if no deletion is taken for superseded while an older file holds its revision: from the step that takes a deletion off the queue on, no recoverable users.json holds the revision it names, whatever is written, fails or loses power later |
| CredentialDeletion.CompletedStaysHidden | hysteria/subscription_service.py:2097-2136 | in every run, from the step that takes a deletion off the queue on, users.json does not show the revision it names until a power loss |
| CredentialDeletion.DurableSettles | hysteria/subscription_service.py:2111-2134 | after a durable save of users.json every deletion may be taken for superseded |
| DeletionExact.SkipExact | hysteria/subscription_service.py:2111-2136 | taking a deletion for superseded can be followed by its completion and the return of the account if and only if an older, recoverable users.json holds the revision it names |
| CredentialDeletion.CompletedWasRedone | hysteria/revocation_queue.py:270-292 | in every run a deletion leaves the queue only after the retry thread decided on it, while users.json does not show its revision: kicks alone never complete it |
| CredentialDeletion.GoneStays | hysteria/subscription_service.py:7865-7921 | a revision that no recoverable users.json holds never comes back, whatever follows |
| CredentialDeletion.RedoTouchesOnlyNamed | hysteria/subscription_service.py:2103-2128 | a redo changes no other account, and neither removes nor purges a same-name account of another revision |
| CredentialDeletion.EveryRunSound | hysteria/revocation_queue.py:270-292 | the invariant behind these, over every run: queued, claimed and handed-over deletions name their revision, one not yet decided on has at most its own request's kick, and users.json does not show the revision of one decided on |
| CredentialLimits.UncertainDeletionComesBack | hysteria/subscription_service.py:2111-2134 | a run in which the named account returns because the superseded branch does not rewrite the file |
| CredentialService.Panel.RecoverableUserRotation | hysteria/subscription_service.py:1725-1910 | the whole handler, for every combination of failing writes, performs exactly the machine's steps; its answer is given case by case in the order of the checks: forbidden, disabled, expired, conflict and failure each under its own condition only, and otherwise the receipt's token, replayed or not, durable or not |
| CredentialService.Panel.PrepareAndInstall | hysteria/subscription_service.py:1776-1851 | receipt, then task, then users.json: the first failing write ends the request with nothing later written |
| CredentialService.Panel.ArmAndInstall | hysteria/subscription_service.py:1811-1851 | a task bound otherwise is a conflict, a full queue or a failing write a failure, and nothing later is written |
| CredentialService.Panel.EndInConflict | hysteria/subscription_service.py:1842-1851 | receipt and task are dropped and the answer is conflict, unless a write that was made failed |
| CredentialService.Panel.SaveRotated | hysteria/subscription_service.py:1852-1870 | the account shows the token and nobody else's record changed, unless the file was not replaced; a replay saves again for a fresh point of durability |
| CredentialService.Panel.InstallOrConflict | hysteria/subscription_service.py:1834-1910 | the token is installed, or found installed, exactly when the account shows it or the old one that was posted; otherwise the answer is conflict unless a write failed |
| CredentialService.Panel.ProcessOneRevocationTask | hysteria/subscription_service.py:2090-2233 | one uninterrupted turn of the retry thread, for every combination of failing writes and a failing purge, equals the machine's claim, decision and settling of the first due task; it is true exactly when the claim and the attempt were saved and the account showed the task's target |
| CredentialService.Panel.DecideClaim | hysteria/subscription_service.py:2103-2160 | the locked part redoes a deletion unless it is superseded, gives up its claim when the save or the purge of the history fails, and reads a rotation's generation |
| CredentialService.Panel.SettleClaim | hysteria/subscription_service.py:2168-2233 | discards superseded and abandoned tasks, releases waiting ones and records an attempt for the rest, and says whether it recorded one |
| CredentialService.SettledMeans | hysteria/subscription_service.py:2155-2189 | a claimed task whose decision failed, or whose rotation may still be replayed, is due again exactly five seconds later; one that was superseded or never committed in time is dropped; an attempt is recorded only for the generation in force |
| CredentialService.TurnStops | hysteria/subscription_service.py:2191-2226 | a recorded turn leaves exactly the services waiting whose reload or stop did not succeed, and removes the task only if none is left |
| DeviceAdmission.AdmissionLedger.Reserve | hysteria/auth_backend.py:667-756 | decides by the count plus the reservations still waiting, saves exactly when something changed, and refuses when the save fails |
| DeviceAdmission.Decide | hysteria/auth_backend.py:714-750 | the new ledger, the verdict and whether to save are those of the specification, for every ledger |
| DeviceAdmission.WithoutExpired | hysteria/auth_backend.py:714-726 | every user's expired reservations go and emptied records with them |
| DeviceAdmission.RefusalChanges | hysteria/auth_backend.py:736-749 | a refused request has something to save if and only if the ledger differs |
| DeviceRuns.NeverTooManyDevices | hysteria/auth_backend.py:54-54 | in every run in which counts are applied in the order read and show each admission within the lag, every admission leaves the user's connected clients within the limit it was checked against, provided 2 lag + skew is at most 20 seconds |
| DeviceRuns.EveryRunGuarded | hysteria/auth_backend.py:714-750 | in every such run the newest reservations stand, rank by rank, for the clients the last applied count did not show, or all of those are due in the next count |
| DeviceRuns.PruneGuards | hysteria/auth_backend.py:716-726 | pruning before consuming either spares every reservation still needed or comes so late that none is |
| DeviceRuns.AbsentShrinks | hysteria/auth_backend.py:733-739 | a rise of the count is at most the number of clients it newly shows, and those still absent are no younger than before |
| DeviceRuns.LateCountsOverrun | hysteria/auth_backend.py:714-739 | for every larger lag there is a run that lets in one client too many |
| DeviceRuns.SafeExactlyWithinHalf | hysteria/auth_backend.py:678-684 | the limit is safe over all runs if and only if 2 lag + skew is at most the life of a reservation |
| ReloadProtocol.NoMarkerMeansLoaded | hysteria/xray_config.py:236-290 | in every run, with crashes and power losses between any two steps, no marker means the service is stopped or runs the config on disk |
| ReloadProtocol.StaleServiceKeepsReporting | hysteria/xray_config.py:438-466 | until the service has started after the last config write, every sync reports that a reload is required |
| ReloadProtocol.QuietSyncIsInForce | hysteria/tuic_config.py:263-282 | a sync that asks for no reload leaves a service that is stopped or runs exactly its plan |
| ReloadProtocol.OlderWorkerNeverClears | hysteria/xray_config.py:269-290 | a marker is taken away only by a worker holding its own token that loaded the last config, or replaced by a newer token |
| ReloadProtocol.RecoveryLoadsFresh | hysteria/static_access.py:159-251 | a recovery lifts the fail-closed mark only from a service that is stopped, or was started after the recovery began with a config no older than at that time |
| ReloadProtocol.FailClosedStays | hysteria/static_access.py:60-156 | a fail-closed stop whose mark was saved stays marked through every crash and power loss until a recovery ends |
| ReloadProtocol.EveryRunKeeps | hysteria/xray_config.py:469-525 | the invariant behind these, over every run in which a restart waits for the section that wrote its token |
| ReloadProtocol.EarlyRestartIsForgotten | hysteria/xray_config.py:460-466 | a restart between marker and config ends with the old config running and no marker, so that assumption is needed |
| ReloadService.ProxyService.Sync | hysteria/tuic_config.py:239-282 | marker first, config second, for every failing write; on success the config is the plan and the answer is whether a reload is required |
| ReloadService.ProxyService.ClearReloadPending | hysteria/xray_config.py:269-290 | removes the marker exactly when it still carries the expected token |
| ReloadService.ProxyService.StopFailClosed | hysteria/static_access.py:77-156 | stops the service whatever becomes of the mark, and succeeds exactly when both did |
| ReloadService.ProxyService.RunReloadWorker | hysteria/xray_config.py:469-525 | acknowledges exactly after a successful restart and three successful probes; otherwise the marker stays and the service is stopped |
| ReloadService.ProxyService.RecoverIfPending | hysteria/static_access.py:159-251 | acts only on a marked service and lifts the mark only after a confirmed stop, a start and three successful probes |
| CodexHistory.CompactionUnique | hysteria/codex_quota.py:323-345 | the specification of the compaction, the last row of each bucket in strictly increasing time, determines the result |
| CodexHistory.CompactionIdempotent | hysteria/codex_quota.py:323-345 | compacting a compacted history at the same time changes nothing |
| CodexHistory.CompactionBounded | hysteria/codex_quota.py:42-46 | at most 1441 + 2785 + 4429 rows remain of any input at any time |
| CodexHistory.HistoryCovers | hysteria/codex_quota.py:382-397 | over every run of collections, failures and imports with a clock that does not go back, each accepted row up to 400 days old has a stored row no earlier than it in its bucket of the resolution its age has by then |
| CodexHistory.HistoryCoversTiers | hysteria/codex_quota.py:42-46 | in particular one within the same three minutes for two days, the same quarter of an hour for 31 days and the same two hours for 400 days |
| CodexHistory.HistoryInventsNothing | hysteria/codex_quota.py:486-498 | every stored row was accepted by one of the calls |
| CodexHistory.BucketsNest | hysteria/codex_quota.py:42-46 | rows that share a bucket share one of every coarser tier |
| CodexHistory.PercentKept | hysteria/codex_quota.py:193-197 | clamping and rounding stay within the bounds and half a hundredth, and a stored percentage is read back unchanged |
| CodexHistory.CleanedExactly | hysteria/codex_quota.py:283-320 | a row is accepted if and only if it is an object with a time after the epoch and at most a day ahead and at least one percentage; it keeps its second, each given percentage to the nearest hundredth within bounds, and each positive reset time |
| CodexHistory.LastReadStays | hysteria/codex_quota.py:323-345 | of rows of the same second the one read last is kept |
| CodexCollector.CompactSamples | hysteria/codex_quota.py:323-345 | the cleaning, sorting and bucketing loops meet that specification for every input |
| CodexCollector.Collector.CollectOnce | hysteria/codex_quota.py:376-410 | success, failed query and failed save each leave the compaction of the old rows plus the answer; compacting twice after a failed save does no harm |
| CodexCollector.Collector.Merge | hysteria/codex_quota.py:484-498 | an import stores the compaction of old and imported rows and reports how many it gained |
| WorkLimiter.PasswordWorkLimiter.TryAcquire | hysteria/auth_service.py:130-168 | unusable requests change nothing; all others do what the specification says of windows, table and semaphore |
| WorkLimiter.PasswordWorkLimiter.CleanupSources | hysteria/auth_service.py:119-123 | every tracked source is pruned and exactly the emptied ones are forgotten |
| WorkLimiter.PasswordWorkLimiter.TouchSource | hysteria/auth_service.py:145-156 | the source moves to the end, others are evicted only when the table is full even after the cleanup, oldest first |
| WorkLimiter.WorkLease.Release | hysteria/auth_service.py:63-68 | the permit goes back once, however often the lease is released |
| WorkLimiter.Semaphore.TryAcquire | hysteria/auth_service.py:162-168 | never waits and never exceeds the capacity |
| WorkLimiter.TouchedStaysBounded | hysteria/auth_service.py:145-156 | the table stays consistent and within its cap whatever source is looked up |
| WorkLimiterRuns.OverallWindowHolds | hysteria/auth_service.py:114-168 | in every run at most the global burst of grants falls into any half-open window |
| WorkLimiterRuns.SourceWindowHolds | hysteria/auth_service.py:114-168 | whatever the bounds, likewise per source, for a source not evicted while it had unexpired grants |
| WorkLimiterExact.SourceWindowExactly | hysteria/auth_service.py:114-168 | every source is kept to its burst in every half-open window of every run if and only if the overall burst is at most that burst or smaller than the number of tracked sources |
| WorkLimiterExact.DeployedBurstsHold | hysteria/auth_service.py:37-41 | so it is for the bounds the service runs with |
| WorkLimiterRuns.TableAndLeasesBounded | hysteria/auth_service.py:57-68 | tracked sources and outstanding leases never exceed their bounds, even with repeated releases |
| WorkLimiterExact.EvictionForgets | hysteria/auth_service.py:145-153 | for all other bounds, and any addresses, a run in which a source is pushed out of the table and gets one grant more than its burst into one window |
| AlertClaims.AlertState.ClaimAlert | hysteria/alerts.py:187-227 | grants exactly when neither the delivered key nor an unexpired claim for it is stored, and only if the save is durable |
| AlertClaims.AlertState.FinishAlertClaim | hysteria/alerts.py:230-252 | completes or releases only a claim still standing under its own token |
| AlertClaims.AlertState.Clear | hysteria/alerts.py:150-180 | removes exactly the entries of these users and kinds and saves only when there were some |
| AlertClaims.AlertState.DispatchOnce | hysteria/alerts.py:255-273 | sends only under a granted claim, stores the key only after every channel delivered, releases it otherwise, and touches no other entry |
| AlertClaims.ClaimedExactly | hysteria/alerts.py:187-227 | a claim is refused only while the same key is delivered or claimed within its time to live, and takes no other slot |
| AlertClaims.ClearedExactly | hysteria/alerts.py:150-180 | a clear removes exactly these users' entries of these kinds, and each can be claimed again for any key |
| AlertRuns.KeysAreDelivered | hysteria/alerts.py:237-250 | in every interleaving a stored key was put there by the delivered completion of a claim for that kind, user and key under its own token |
| AlertRuns.GrantedCompletes | hysteria/alerts.py:230-273 | exactly a granted claim can be completed: delivered, its key is stored; not delivered, the slot is free again |
| AlertRuns.SecondClaimNeedsReason | hysteria/alerts.py:204-227 | a second claim of the same alert is granted only after a release, a clear, a claim for another key, or with an age outside [0, ttl); a power loss is no reason |
| AlertRuns.DeliveredNeedsClear | hysteria/alerts.py:204-209 | after a recorded delivery only a clear or another key lets the alert out again, however much time passes, or a power loss if the record was not durable |
| AlertRuns.StaleFinishChangesNothing | hysteria/alerts.py:237-245 | a sender whose claim was cleared or replaced never changes the file again, power losses included |
| AlertRuns.NewerClaimSurvives | hysteria/alerts.py:239-245 | a claim granted while an older sender still delivers survives that sender's completion |
| BillingCycle.AnchorIsLatest | hysteria/cycle.py:39-45 | the settlement anchor is the latest date with that day of the month not after today |
| BillingCycle.SettledOnAnchor | hysteria/cycle.py:39-58 | the day number the evaluators count their cycles from is that date's, for every day of the calendar that has one |
| BillingCycle.DateOfOrdinal | hysteria/cycle.py:39-45 | the day numbers are the calendar's own: each day has the date whose ordinal it is, leap years included |
| BillingCycle.CycleContainsToday | hysteria/cycle.py:61-76 | from the anchor on, today lies in its cycle, which starts a whole number of cycles after the anchor |
| BillingCycle.CycleStartUnique | hysteria/cycle.py:61-76 | no other start has that property |
| BillingCycle.CyclePartition | hysteria/cycle.py:79-89 | the listed days are exactly those up to today with the same cycle start, so cycles partition the days |
| BillingCycle.CycleReachesBack | hysteria/traffic_limiter.py:50-52 | no legal cycle reaches back more than 89 days |
| BillingCycle.ListCycleDays | hysteria/cycle.py:79-89 | the day-by-day loop lists exactly the cycle's days up to today |
| UsageLedger.MergeTraffic | hysteria/traffic_limiter.py:570-574 | every user of either source ends with the sum of both in each direction |
| UsageLedger.AccumulateDaily | hysteria/traffic_limiter.py:602-620 | the tick adds the collected bytes to today and prunes, and nothing else |
| UsageLedger.TickAmounts | hysteria/traffic_limiter.py:577-620 | a tick keeps the ledger valid and changes no retained amount but today's, by exactly the collected bytes |
| UsageLedger.TickDirections | hysteria/traffic_limiter.py:577-620 | a tick adds uploaded bytes to the upload and downloaded bytes to the download of today |
| UsageLedger.TickKeepsSums | hysteria/traffic_limiter.py:486-493 | every touched entry holds both directions and their sum |
| UsageLedger.PruneDaily | hysteria/traffic_limiter.py:577-581 | exactly the days of the last 92 stay |
| UsageLedger.CycleUsedRawFor | hysteria/traffic_limiter.py:472-483 | the loop adds the bytes of every listed day, whatever the entry's form |
| UsageLedger.UsedNeverFalls | hysteria/traffic_limiter.py:868-901 | over every run of ticks within one cycle nobody's used bytes fall |
| UsageLedger.ChargedExactly | hysteria/traffic_limiter.py:577-620 | over such a run a user is charged exactly what was collected for that user, and the prune takes none of it |
| AuthorizationPlans.PanelReadsExactly | hysteria/subscription_service.py:866-915 | of the counts the limiter accepts, the panel refuses exactly those with a leading zero |
| AuthorizationPlans.EntryReadersAgree | hysteria/auth_backend.py:266-281 | the three readers of a day's entry agree on every entry the limiter accepts, up to that refusal |
| AuthorizationPlans.StartsFromAnchor | hysteria/cycle.py:48-76 | with a stored anchor the cycle of today is counted from it in the stored length, or 30 days; before it, it is the start |
| AuthorizationPlans.StartsFromSettlement | hysteria/cycle.py:48-76 | without one it is counted from the latest day up to today that has the stored day of the month, or the twelfth |
| AuthorizationPlans.DaysMeans | hysteria/cycle.py:79-89 | the days held against a quota are exactly those of that cycle up to today |
| AuthorizationPlans.BlockedExactly | hysteria/user_compat.py:84-184 | a user is taken out if and only if disabled, expired, or metered with a quota set that the billed bytes, used times multiplier, reach |
| AuthorizationPlans.QuotaExactly | hysteria/user_compat.py:124-130 | the quota is the stored quota plus the stored extra, each nothing if not stored |
| AuthorizationPlans.PlanExactly | hysteria/traffic_limiter.py:770-792 | the plan takes out exactly the blocked users, lets the others in with their own UUID, and says nothing of those without one |
| AuthorizationPlans.LimiterPlan | hysteria/traffic_limiter.py:770-792 | the plan and the users to kick are those whose lifecycle or quota blocks them |
| AuthorizationPlans.PanelPlan | hysteria/subscription_service.py:948-1012 | the same plan, or an error if and only if a consulted count or a cycle setting has a leading zero |
| AuthorizationPlans.AuthTurnsAway | hysteria/auth_backend.py:945-992 | turns away exactly the users the plan blocks, those whose device limit is written as a fraction, and every metered user if the anchor is written without padding or the ledger holds a day before the year 1000 |
| AuthorizationPlans.AuthDevicesExactly | hysteria/auth_backend.py:838-854 | of the device limits the limiter's validators accept, authentication refuses exactly the fractions |
| AuthorizationPlans.FractionDisagrees | hysteria/user_compat.py:39-56 | with a device limit of 2.0 both plans admit the user and authentication does not |
| AuthorizationPlans.AuthUsed | hysteria/auth_backend.py:980-990 | the backend's sum never raises on limiter-valid state and equals the limiter's |
| AuthorizationPlans.OutStaysOut | hysteria/traffic_limiter.py:770-792 | a blocked user stays blocked over every run of ticks while the cycle start stays the same and nobody edits user, cycle or multiplier |
| UsageRefresh.RefreshConserves | hysteria/subscription_service.py:755-835 | a completed refresh keeps the server's raw cycle total, a completed reset lowers it by exactly the user's cycle bytes, and the user has none left |
| UsageRefresh.OthersUntouched | hysteria/subscription_service.py:765-777 | no other user's entry and no day outside the cycle changes |
| UsageRefresh.BankedGrows | hysteria/subscription_service.py:813-835 | banking raises the cycle's preserved total by exactly the bytes banked, sweep of earlier cycles included |
| UsageRefresh.BankedExactly | hysteria/subscription_service.py:813-835 | each direction is banked to its own, other users and later cycles keep theirs, and earlier cycles go |
| UsageRefresh.DaysZeroed | hysteria/usage_dashboard.py:181-186 | zeroing a user takes exactly that user's bytes off the total over the cycle's days |
| UsageRefresh.CycleRawForUser | hysteria/subscription_service.py:838-857 | total, upload and download are the user's bytes over the cycle; a plain count belongs to the total only |
| UsageRefresh.UsageStore.RefreshUsage | hysteria/subscription_service.py:7472-7510 | for every combination of failing saves the server's total is unchanged, or too high by the user's bytes exactly when they were banked and the days not zeroed |
| UsageRefresh.UsageStore.ResetUsage | hysteria/subscription_service.py:7434-7470 | for every combination of failing saves the total falls by exactly the user's bytes or not at all |
| XrayClients.EmailLeadsBack | hysteria/xray_config.py:52-63 | stripping the suffix of a valid user's email on either port gives that user back |
| XrayClients.EmailsDistinct | hysteria/user_compat.py:10-18 | valid users and ports have pairwise different emails |
| XrayClients.IncrementalExactly | hysteria/xray_config.py:314-386 | the per-user path, in whatever order, leaves a port the same clients as the exact rebuild, each once, if and only if every client of no removed user is of a wanted user on this port, no two of one user |
| XrayClients.ReapplyingChangesNothing | hysteria/xray_config.py:450-466 | applying the plan again by either path, in another order, changes nothing |
| XrayClients.StrangerSurvives | hysteria/xray_config.py:438-466 | for one, a client the plan does not know survives the per-user path and not the rebuild |
| XrayClients.RemovedEverywhere | hysteria/xray_config.py:338-350 | removing a user takes its clients of both ports out of every VLESS inbound and no others |
| XrayClients.SetOnManaged | hysteria/xray_config.py:314-335 | setting a user replaces the first client of the port's email or adds one at the end, on the two managed ports only |
| XrayClients.XrayConfig.ApplyUser | hysteria/xray_config.py:314-350 | one user's entry is set or removed on every inbound, and the answer is whether anything changed |
| XrayClients.XrayConfig.ApplyUserPlan | hysteria/xray_config.py:450-466 | the plan applied entry by entry; an answer of no change is true |
| XrayClients.XrayConfig.ApplyManagedPlan | hysteria/xray_config.py:353-386 | the managed client lists are exactly the plan's, all else is untouched, and the answer is whether anything changed |
| ClashRules.PrependedDecides | hysteria/subscription_profiles.py:265-268 | rules put first decide wherever one of them matches; elsewhere the list decides as before although their later copies are gone |
| ClashRules.PrependedAgain | hysteria/subscription_profiles.py:265-268 | putting the same rules first again changes nothing |
| ClashRules.DedupedAgain | hysteria/subscription_profiles.py:227-235 | adding items in front without duplicates, done twice, is done once |
| ClashRules.DedupedMeans | hysteria/subscription_profiles.py:227-235 | the same items, each once |
| ClashRules.MatchReplacedDecides | hysteria/subscription_profiles.py:387-398 | whatever no more specific rule decides gets the new action, and all else is decided as before |
| ClashRules.ProxiedDecides | hysteria/subscription_profiles.py:494-505 | if no rule of nested conditions is rewritten before the catch-all, the same rule decides as before with its action redirected, for every engine that finds a plain rule's action in the third field |
| ClashRules.RedirectsExactly | hysteria/subscription_profiles.py:401-410 | the rewritten list decides so for every such engine if and only if no rule of nested conditions before the catch-all is rewritten |
| ClashRules.RedirectedExactly | hysteria/subscription_profiles.py:494-505 | a rule is redirected if and only if it is not exempt and its action, or any other field but the first, begins with DIRECT |
| ClashRules.LeftAloneExactly | hysteria/subscription_profiles.py:485-497 | exempt are exactly ad blocking, the servers' own addresses and private networks |
| ClashRules.RejectedGoesThrough | hysteria/subscription_profiles.py:502-503 | a rule set named DIRECT-sites that rejects is sent through the proxy |
| ClashRules.NestedRuleIsSpoiled | hysteria/subscription_profiles.py:401-410 | a rule of nested conditions loses a condition and stays direct |
| ClashRules.Dedupe | hysteria/subscription_profiles.py:227-235 | the loop keeps each item at its first place |
| ClashOverlay.AdjustedMeans | hysteria/subscription_profiles.py:238-262 | an adjusted group lists exactly the allowed preferred and previous items, each once |
| ClashOverlay.GroupSetMeans | hysteria/subscription_profiles.py:238-262 | only the last group of the name changes; it lists exactly the allowed preferred and previous items, preferred ones first and in that order, the others as before; each setting given replaces the old one |
| ClashOverlay.GroupSetAgain | hysteria/subscription_profiles.py:238-262 | adjusting a group again changes nothing |
| ClashOverlay.GroupSetsCommute | hysteria/subscription_profiles.py:238-262 | groups of different names can be adjusted in either order |
| ClashOverlay.ProfiledAgain | hysteria/subscription_profiles.py:508-519 | applying any profile twice is applying it once |
| ClashOverlay.ProfileDecides | hysteria/subscription_profiles.py:413-505 | what each profile makes of the base list's first-match decision; only the full-proxy profile needs that no rule of nested conditions is rewritten |
| ClashOverlay.ProfilePrefers | hysteria/subscription_profiles.py:413-482 | in the node group low-data goes direct first and every other profile last; the game profile tries UDP before TCP, the others TCP before UDP |
| ClashOverlay.AutoOrder | hysteria/subscription_profiles.py:413-482 | in the automatic group likewise; games test for speed, the others fall back, and probing gets rarer from game over safe and work to low-data |
| ClashOverlay.OverlaidAgain | hysteria/subscription_profiles.py:303-371 | the same overlay or rule pack applied again changes nothing |
| ClashOverlay.RenderedDecides | hysteria/subscription_profiles.py:627-629 | in the rendered list the personal rules decide wherever one matches, and elsewhere the profiled base |
| ClashOverlay.ProxyGone | hysteria/subscription_profiles.py:341-354 | the removed proxy is in no list any more; every other item stays in its order, and nothing else changes |
| ClashOverlay.RenderedTransport | hysteria/subscription_profiles.py:627-629 | a user without TUIC is handed its proxy in no list and loses nothing else; a user with it gets the base's proxies and the profiled groups |
| ClashOverlay.RenderedLists | hysteria/subscription_profiles.py:303-371 | the user's own names and exclusions come first, each once, the base's stay in order, and without own ones the lists are the base's |
| ClashOverlay.ClashConfig.PrependUniqueRules | hysteria/subscription_profiles.py:265-268 | the loop over the rules does what the decision lemma is about |
| ClashOverlay.ClashConfig.ReplaceMatchRule | hysteria/subscription_profiles.py:387-398 | every catch-all is rewritten, or one appended if there was none |
| ClashOverlay.ClashConfig.SetGroupProxies | hysteria/subscription_profiles.py:238-262 | the loops over groups, names and proxies adjust the last group of that name in place and no other |
| ClashOverlay.ClashConfig.ApplyProfile | hysteria/subscription_profiles.py:413-519 | the four profile functions in place equal the specified edit of rules and groups |
| ClashOverlay.ClashConfig.Render | hysteria/subscription_profiles.py:627-629 | profile, transport policy and personal overlay in this order |

## Left out

- CredentialSteps.NoRevocationIsLost: is proved under `Calm` and a bound on the retry thread, because without either it is false; `CredentialExact` and `PatienceExact` show that both are exact.
- CredentialExact.ReadingExact: the converse is for states in which every live receipt can be replayed at once; a receipt whose task the queue refused, because it is full or binds the id otherwise, may keep the dropped token out of reach.
- CredentialExact.RearmExact: is about requests that go on to install their token; for one that will end in a conflict the guard is sufficient only.
- CredentialDeletion.CompletedMeansGone: assumes (`Settled`) that a deletion is taken for superseded only when no older, recoverable file holds its revision; `SkipExact` shows that this is exactly when it is safe.
- AuthorizationPlans.LimiterPlan: takes the multiplier as an exact real number; the limiter's floating-point product and the backend's decimal one are not modelled.
- AuthorizationPlans.PanelPlan: is compared on state that passes the limiter's validators; what it makes of other JSON values is not modelled.
- CodexCollector.CompactSamples: numbers are taken as parsed and percentages as exact, so a float's own error in rounding to hundredths is not modelled.
- ClashRules.ProxiedDecides: rule engines that do not find a plain rule's action in its third field are outside it.
- DeviceRuns.NeverTooManyDevices: the clock may skew between requests but the lag is taken from the latest reading; the online snapshot fallback can exceed any lag of 10 seconds, and a power loss, which also ends every connection, is not a step of these runs.
- WorkLimiterExact.SourceWindowExactly: clock readings are taken in the order of the limiter's lock; any number of different source addresses exists, where the code takes texts of at most 128 characters.
- RevocationRuns.DueTaskServed: counts the turns between power losses; one that brings an older version back may bring other tasks forward again.
- ReloadService.ProxyService.StopFailClosed: a stop that fails is taken to leave the process alone; that it died anyway is the machine's own step.
- Tokens, revisions and nonces are fresh numbers that never repeat, so an account edited back to an earlier record is not modelled; an account's vless UUID stands with its token, and accounts without a token are left out.
- A receipt neither expires nor is removed between its lookup and its rewrite inside one request; digests are injective, and their order only breaks ties between tasks.
- Session, lifecycle and form checks that only turn a rotation away are inputs; so are the results of kicks, reloads, stops and history purges.
- The lookup of a receipt before the lock is merged with taking the lock.
- The retry thread is single; the dead function `_rotate_user_token_if_current` and the reset of all users' usage are left out.
- `flock`, JSON and YAML parsing, file permissions and the exception fallbacks of the renderers are left out; a critical section is atomic unless it writes.
- The plan's users in sorted order are any listing of them without repetition; the TUIC user map, log path migration and initial config are left out as easy.
- The hourly ledger, the legacy monthly usage summary and alert thresholds are left out; they decide no authorization.
- Admin sessions, health probes, TUIC metering, the cost calibrator and all rendering of pages are left out.
