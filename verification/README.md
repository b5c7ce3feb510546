# Verification of the AI open platform

Dafny models of the platform's stateful parts, with proofs of what they promise.

Run `dafny verify dfyconfig.toml` in this directory (Dafny 4.11).

The code is modelled in its own form: classes whose methods change their fields, loops where the source loops,
step systems where threads interleave. Each method is tied to a function on values or to a stretch of steps, and the
theorems are about those.

| area | files |
|---|---|
| asynchronous grants: claims, stream, consumers, compensator, dead letters | `GrantProtocol`, `GrantClaims`, `GrantSafety`, `GrantTheorems`, `GrantAnyRun`, `GrantReasons`, `GrantWindow`, `GrantDrift`, `GrantDriftRuns`, `GrantStores`, `GrantWorkers` |
| Credits account, pricing, streaming sessions | `Pricing`, `Credits`, `StreamSession`, `StreamOutcomes`, `StreamThreads`, `GatewayRuns`, `CallOutcomes` |
| child diff of the page runtime | `VDom`, `ChildDiff`, `DiffTurns`, `DiffResult`, `UpdateChildren` |
| watcher scheduler, dependency tracking | `FlushSpec`, `Scheduler`, `DepGraph`, `DepTracking`, `DepHooks` |
| template parser, child normalisation, keep-alive | `HtmlEvents`, `HtmlTokens`, `HtmlParser`, `NormalizeChildren`, `DefaultKeys`, `KeepAlive` |
| multi-level cache, id generator | `CacheLevels`, `IdLists`, `CacheUpdates`, `CacheReads`, `CacheRuns`, `CacheService`, `IdWorker` |
| shared by several | `Wrappers`, `Sequences`, `Numerals` |

## Assumptions

- Grants: a SKU's purchase limit and Credits amount do not change and deleted SKU ids are not used again; rollback markers do not expire (the source keeps them for a week); a lock or row lock stays with its holder until it is given up; an administrator's stock update (database row and Redis delta) is one step.
- Credits: an account starts fresh; a settlement's transaction either commits or does nothing, and the caller learns which.
- Child diff: `sameVnode` is modelled in full; keys are strings; patching one vnode does not touch its siblings' elements; the parent holds exactly the old children's elements.
- Scheduler and dependencies: a watcher is its id; what a run or a getter does is given by a script of the calls it makes.
- Template parser: the tokeniser is a parameter; it takes what it finds from the front of the text, and everything but text takes at least one character.
- Cache: one node; an update or event is one step with its evictions, and so is a read with its loading, or, where others interrupt it, each read inside it and then the late store of what it loaded; the steps of different requests interleave; JSON read back as written.
- Calls that can throw, lock waits and interrupted sleeps are decided outside; each that goes wrong is recorded, and the methods' contracts say what they may blame on it.
- Keep-alive: a number key is a whole number, written out in decimal as a property name.

## Where the code falls short of the wish

- A grant that commits while the compensator stands between `orderGranted` and `recordFailedOrder` for the same order ends both granted and rolled back. `GrantTheorems.DisciplineIsExact` says that this interleaving is the only one to rule out, `GrantWindow.AnUnsafeRunExists` gives a run into it. The source's README speaks of more than 3 deliveries; the code's limit is 5 and the model follows the code.
- A stock update between a refused grant and its rollback can spoil the Redis stock either way: `GrantDriftRuns.DriftGrows` is a run in which Redis ends up offering more than the database holds, `GrantDriftRuns.DriftFallsBelowZero` one in which restocked units are lost. `GrantDrift.CalmIsExact` says exactly which rollbacks and stock updates do no harm.
- When the set of a SKU's claimants expires in Redis, a user whose one claim still stands gets another (`GrantClaims.ExpiryLetsClaimTwice`); without expiry `GrantClaims.ClaimGoesThroughIff` is exact.
- `validateRequest` returns before looking at `max_tokens` when streaming, so a negative value makes a negative reservation. `Pricing.SafeMaxTokens` and `GatewayRuns.NonnegativeIsExact` give the exact conditions.
- `updateSku` misses cached aggregates whose `sku_ids` name the SKU with blanks, leading zeros or a sign, though `validateActivity` accepts such texts. `CacheUpdates.UpdateIsCoherentIff` is the exact condition.
- A grant's stock update evicts nothing: the SKU and every aggregate that shows it are stale until the binlog's event (`CacheUpdates.DeductIsCoherentIff`), which brings them back exactly if no aggregate is missed (`CacheUpdates.SyncRestoresIff`).
- A request that keeps an old row in its own scope and then rebuilds an aggregate spoils the shared levels (`CacheRuns.OldScopeSpoilsAggregate`); `CacheReads.RebuildIsCoherentIff` is the exact condition. A row loaded before a change and stored after its evictions brings the old row back (`CacheRuns.LateStoreSpoils`); `CacheRuns.LateStoreIsClean` says from when on it may be stored.
- The scan for an old vnode asks `sameVnode` with the new vnode first, the acceptance with the old one first. For an async placeholder the two can differ, and an element is created although the next old vnode would do (`DiffResult.PlaceholderMisses`); for every other new vnode reuse is maximal (`DiffResult.NoReuseMissed`).
- The scheduler's limit of 100 stops a watcher that queues itself, not two that queue each other (`FlushSpec.PingPongIsNotBroken`); `FlushSpec.BreaksIff` says exactly when it stops a flush. A run that throws (`FlushSpec.ThrowsIff`) leaves the queue stuck for good (`Scheduler.ThrownFlushIsStuck`).
- A watcher that is evaluated again after its teardown, as a dirty computed property is when it is read, is subscribed to what it reads new (`DepTracking.TornWatcherComesBack`); it stays forgotten exactly if it reads nothing new (`DepTracking.StaysForgottenIff`).
- `pushTarget()` puts nothing on the stack where there is no target, yet `popTarget` takes something off. A hook that runs inside an evaluation and has something evaluated leaves other targets behind (`DepHooks.HookRestoresIff`), and what the outer watcher reads afterwards is not noted (`DepHooks.ReadsAreLost`).
- With comments kept, a comment outside all elements makes `parse` throw (`HtmlTokens.LeadingCommentThrows`, `HtmlTokens.CommentAloneThrows`); `HtmlParser.Parser.ParseHTML` throws exactly then.
- `pruneCache` looks for property names, which are strings, among keys that may be numbers: a component with a number for a key stays in the order of use, and stands there twice when it is shown again (`KeepAlive.NumberStandsTwice`). `KeepAlive.AlwaysConsistentIff` is the exact condition.

## Model

| member | source | states |
|---|---|---|
| GrantTheorems.EveryRunIsSafe | src/main/java/com/aiopenplatform/consumer/TokenGrantConsumer.java:187-306 | in every run with redelivery, retries, exceptions, crashes, expiry and dead letters, an acknowledged order is granted or rolled back and never both, and no reservation is returned twice |
| GrantAnyRun.EveryRunBalances | src/main/java/com/aiopenplatform/service/impl/TokenOrderServiceImpl.java:142-236 | in every run at all, through the dead-letter window too: stock never below zero, stock plus granted orders equals all supply, every user within limit_count, or 1 if that is not positive, one ledger entry for each granted order and none for any other |
| GrantAnyRun.EveryRunSettlesOnce | src/main/java/com/aiopenplatform/consumer/TokenGrantConsumer.java:234-306 | in every run at all, no reservation is returned twice and an acknowledged order is granted or its reservation returned |
| GrantAnyRun.AnyStepKeeps | src/main/java/com/aiopenplatform/consumer/TokenGrantConsumer.java:187-306 | every step whatever of any worker, claim or administrator keeps what this rests on: locks, row locks, limits found, acknowledgements |
| GrantTheorems.HistoryIsNeverRewritten | src/main/java/com/aiopenplatform/service/impl/TokenOrderServiceImpl.java:209-236 | in any run at all, order rows, markers, returned reservations, ledger entries and acknowledgements are never changed or taken back |
| GrantTheorems.SecondRollbackChangesNothing | src/main/resources/lua/rollback_grant.lua:1-34 | however a run goes on after a rollback of an order, running the script for it again changes nothing |
| GrantTheorems.DisciplineIsExact | src/main/java/com/aiopenplatform/consumer/GrantPendingCompensator.java:115-138 | a step keeps every disciplined way of going on safe if and only if it does not commit a grant while that order stands in the dead-letter window |
| GrantTheorems.OpenWindowBreaks | src/main/java/com/aiopenplatform/consumer/GrantPendingCompensator.java:125-134 | from any good state, a commit in the window and the compensator's two next steps make an order both granted and rolled back |
| GrantWindow.AnUnsafeRunExists | src/main/java/com/aiopenplatform/consumer/GrantPendingCompensator.java:115-138 | such a state is reached from an empty system by a concrete run |
| GrantSafety.StepKeeps | src/main/java/com/aiopenplatform/consumer/TokenGrantConsumer.java:213-272 | every disciplined step of any worker, claim or administrator keeps the invariant, workers' locks and findings included |
| GrantReasons.ReturnedForAReason | src/main/java/com/aiopenplatform/consumer/TokenGrantConsumer.java:234-306 | in any run a reservation is given back only if, at some moment before, its order had failed, its SKU was gone or out of stock, its user had all he may have, or the message was a dead letter that was not granted |
| GrantReasons.AcknowledgedIsGranted | src/main/java/com/aiopenplatform/consumer/TokenGrantConsumer.java:234-266 | so an acknowledged order that never met such a reason is granted, with nothing given back |
| GrantReasons.ReturnedIsRecorded | src/main/java/com/aiopenplatform/service/impl/TokenOrderServiceImpl.java:202-236 | in any run an order whose reservation was given back has its row, unless at some moment before its SKU was gone or its user had all he may have |
| GrantReasons.DeadLetterWasDelivered | src/main/java/com/aiopenplatform/consumer/GrantPendingCompensator.java:41-41 | in any run a message becomes a dead letter only after it was handed out more than 5 times |
| GrantClaims.ClaimRefused | src/main/resources/lua/grant.lua:19-41 | -1, -2, -3 and -4 are answered exactly when there is no stock, the user has claimed, the counter is at the limit, the message cannot be written; the first three change nothing |
| GrantClaims.ClaimTaken | src/main/resources/lua/grant.lua:43-67 | any other claim takes one unit, notes the user and leaves one unread message |
| GrantClaims.ClaimsWithinLimit | src/main/resources/lua/grant.lua:25-41 | in any run in which a user's claims of a SKU carry one limit and nothing that notes them expires, never more of them stand, neither refused nor rolled back, than the limit allows |
| GrantClaims.ClaimGoesThroughIff | src/main/resources/lua/grant.lua:19-67 | in such a run a claim goes through if and only if there is stock, the message can be written, and fewer claims stand than the limit allows |
| GrantClaims.RollbackLetsClaimAgain | src/main/resources/lua/rollback_grant.lua:27-33 | in such a run, after a standing claim is rolled back its user can claim again if and only if there is stock |
| GrantClaims.ExpiryLetsClaimTwice | src/main/resources/lua/grant.lua:45-48 | after the claimants' set has expired, a user whose claim still stands has a second one standing |
| GrantDrift.CalmIsExact | src/main/resources/lua/rollback_grant.lua:14-34 | a step leaves the counters sane and no SKU's drift (Redis stock plus reservations in flight minus database stock) higher if and only if it is calm: an overwriting rollback sets no more than the Redis stock plus the unit given back and leaves the database covered, and a stock update takes away no more than Redis still offers |
| GrantDrift.DriftNeverGrows | src/main/java/com/aiopenplatform/service/impl/TokenSkuServiceImpl.java:86-107 | drift never goes up along a disciplined run of calm steps |
| GrantDrift.CoveredRuns | src/main/resources/lua/grant.lua:43-67 | a disciplined calm run that starts with every unit covered keeps that drift at zero or above for every SKU |
| GrantDrift.UnhurriedRunsAreCalm | src/main/java/com/aiopenplatform/consumer/TokenGrantConsumer.java:269-272 | a run that starts covered, and in which no stock is really changed between a refusal and its rollback nor taken away beyond what Redis offers, is calm |
| GrantDrift.OverwriteLowersIff | src/main/resources/lua/rollback_grant.lua:14-34 | a rollback that sets the stock to the figure read from the database lowers the drift by at least one if and only if that figure is at most the Redis stock |
| GrantDrift.UnhurriedOverwritesLower | src/main/java/com/aiopenplatform/consumer/TokenGrantConsumer.java:269-272 | along a run that starts covered and is unhurried in that sense, every such rollback lowers the drift by at least one |
| GrantDrift.NoRefusalFromZeroDrift | src/main/java/com/aiopenplatform/service/impl/TokenOrderServiceImpl.java:170-180 | once a SKU's drift is zero, no standing reservation of it is refused for lack of stock ever after in a calm run |
| GrantDrift.EvenRunsNeverRefuse | src/main/java/com/aiopenplatform/service/impl/TokenOrderServiceImpl.java:170-180 | a calm run that starts with Redis and the database even never refuses a standing reservation for lack of stock |
| GrantDrift.RestockInTheWindow | src/main/java/com/aiopenplatform/consumer/TokenGrantConsumer.java:269-272 | a stock update to v between a refusal's stock read and its rollback leaves, whatever was read, the drift at what was read plus the reservations left in flight minus v |
| GrantDriftRuns.DriftGrows | src/main/java/com/aiopenplatform/consumer/TokenGrantConsumer.java:269-272 | a run from an empty system, restocked before the refused grant's stock read and claimed from after it: the drift grows from 1 to 2 |
| GrantDriftRuns.DriftFallsBelowZero | src/main/java/com/aiopenplatform/consumer/TokenGrantConsumer.java:269-272 | a run from an empty system, restocked after that read: the drift ends at -2 |
| GrantWorkers.Worker.GrantTokenOrder | src/main/java/com/aiopenplatform/service/impl/TokenOrderServiceImpl.java:142-199 | the transaction as written, with everybody else moving between its accesses, is a stretch of the step system and ends where its result says; every refusal has its reason in the tables; success means the order row and the last ledger row are there and agree; it throws if and only if one thing went wrong |
| GrantWorkers.Worker.FailGrantAndReconcileStock | src/main/java/com/aiopenplatform/consumer/TokenGrantConsumer.java:269-272 | record the failure, read the stock, roll back, with others in between: a stretch of the step system that ends with the order's marker set, unless one call threw |
| GrantWorkers.Worker.HandleOnce | src/main/java/com/aiopenplatform/consumer/TokenGrantConsumer.java:234-266 | with others in between, every branch is a stretch of the step system; a return without exception means the message is acknowledged and the order granted or rolled back; an exception comes out if and only if one thing went wrong: a call threw, another worker held the row lock, or the rows could not be inserted |
| GrantWorkers.Worker.HandleWithTransientRetry | src/main/java/com/aiopenplatform/consumer/TokenGrantConsumer.java:213-229 | each failed attempt had one mishap of its own; it gives up only after 3 of them or an interrupted back-off, and otherwise has settled and acknowledged |
| GrantWorkers.Worker.ProcessRecord | src/main/java/com/aiopenplatform/consumer/TokenGrantConsumer.java:187-206 | the user's lock is taken for the whole handling, on every path this worker holds no lock afterwards, and it throws only if the lock was not to be had, the back-off was interrupted or 3 attempts failed |
| GrantWorkers.Worker.RetryOrDeadLetter | src/main/java/com/aiopenplatform/consumer/GrantPendingCompensator.java:115-138 | processing again and, past the delivery limit, the dead-letter block, with others in between: done means acknowledged and settled, and after disciplined steps from a good state granted or returned but not both; past the limit it is left undone only if the processing failed and one more call after it |
| GrantWorkers.Worker.Compensate | src/main/java/com/aiopenplatform/consumer/GrantPendingCompensator.java:49-103 | the whole pending list is worked off while others go on: whatever is not reported as failed is acknowledged, and whatever is was not pending, not idle long enough, or had enough go wrong with it; without a mishap nothing is; disciplined steps lead from a good state to a good and safe one, and any steps keep what every run keeps |
| GrantWorkers.Worker.PollOnce | src/main/java/com/aiopenplatform/consumer/TokenGrantConsumer.java:150-176 | the same of a batch: nothing that was in the stream stays unread, and what was in it and is reported as failed had enough go wrong with it; without a mishap all of it is acknowledged |
| GrantStores.Stores.Select | src/main/java/com/aiopenplatform/service/impl/TokenOrderServiceImpl.java:145-169 | the opening reads give the duplicate, missing, over-limit or go-on answer of the protocol's check |
| GrantStores.GoesKeepsInv | src/main/java/com/aiopenplatform/consumer/TokenGrantConsumer.java:150-306 | whatever disciplined stretch such methods are from a good state ends in a good and safe one |
| GrantStores.GoesKept | src/main/java/com/aiopenplatform/consumer/TokenGrantConsumer.java:150-306 | any stretch keeps what every run keeps and rewrites no history |
| GrantStores.GenuineFrom | src/main/java/com/aiopenplatform/consumer/TokenGrantConsumer.java:150-306 | a mishap recorded in a later part of a stretch was so on the stretch as a whole, a row lock met being another worker's |
| Pricing.ChargeIsClose | src/main/java/com/aiopenplatform/gateway/PlatformService.java:335-341 | a charge is at least the exact price and less than two credits above it |
| Pricing.CostMonotone | src/main/java/com/aiopenplatform/gateway/PlatformService.java:335-341 | more tokens never cost less |
| Pricing.ReserveAmount | src/main/java/com/aiopenplatform/gateway/PlatformService.java:326-333 | the loop over the messages computes the conservative estimate |
| Pricing.EstimateIsClose | src/main/java/com/aiopenplatform/gateway/PlatformService.java:326-333 | that is at least the exact price of all characters and 256 as input and max_tokens as output, and less than two credits above it |
| Pricing.UsageWithinEstimate | src/main/java/com/aiopenplatform/gateway/PlatformService.java:326-341 | usage within characters plus 256 and max_tokens costs no more than was reserved |
| Pricing.StreamChargeWithinEstimate | src/main/java/com/aiopenplatform/gateway/PlatformService.java:449-452 | the same for what a stream is settled for, reported usage or not |
| Pricing.StreamChargeIsClose | src/main/java/com/aiopenplatform/gateway/PlatformService.java:449-452 | reported usage is charged at its exact price, less than two credits above it; without any the whole estimate is |
| Pricing.CheckedEstimate | src/main/java/com/aiopenplatform/gateway/PlatformService.java:319-321 | every call without streaming reserves a non-negative amount |
| Pricing.CheckedIff | src/main/java/com/aiopenplatform/gateway/PlatformService.java:310-321 | a call without streaming is let through if and only if max_tokens is missing, and then 1024, or from 1 to 2048 |
| Pricing.StreamEstimateCanBeNegative | src/main/java/com/aiopenplatform/gateway/PlatformService.java:315-318 | a streaming request whose reservation is negative |
| Pricing.SafeMaxTokens | src/main/java/com/aiopenplatform/gateway/PlatformService.java:310-333 | a value of max_tokens reserves a non-negative amount for all messages and prices if and only if it is not negative |
| Credits.CreditTables.GrantCredits | src/main/java/com/aiopenplatform/gateway/PlatformService.java:147-155 | balance and ledger grow together, bad arguments change nothing, other users are untouched |
| Credits.CreditTables.PurchaseCredits | src/main/java/com/aiopenplatform/gateway/PlatformService.java:162-177 | exactly the three packages are sold, with order, balance and ledger written together |
| Credits.CreditTables.AdjustCredits | src/main/java/com/aiopenplatform/gateway/PlatformService.java:180-198 | a deduction is refused exactly if it exceeds the balance |
| Credits.CreditTables.Reserve | src/main/java/com/aiopenplatform/gateway/PlatformService.java:343-346 | the amount moves from balance to frozen exactly if the balance covers it |
| Credits.CreditTables.Settle | src/main/java/com/aiopenplatform/gateway/PlatformService.java:352-366 | account, ledger and call row together if both conditions of the update hold, nothing otherwise |
| Credits.CreditTables.Release | src/main/java/com/aiopenplatform/gateway/PlatformService.java:368-370 | the reservation goes back to the balance if it is frozen, silently nothing otherwise |
| Credits.CreditTables.Chat | src/main/java/com/aiopenplatform/gateway/PlatformService.java:265-286 | a call charges exactly its cost with one ledger entry and one call row, or leaves every credit where it was |
| Credits.ReleaseUndoesReserve | src/main/java/com/aiopenplatform/gateway/PlatformService.java:343-370 | reserving and releasing, or settling for nothing, gives every credit back |
| Credits.SettledBalances | src/main/java/com/aiopenplatform/gateway/PlatformService.java:352-366 | settling keeps balance plus frozen equal to the sum of the ledger |
| StreamSession.EverySessionIsSafe | src/main/java/com/aiopenplatform/gateway/GatewayController.java:95-197 | under every interleaving of the executor and any callbacks: at most one of settle and release, at most one call row, the end of the stream only after a committed settlement, nothing more after a failed one |
| StreamSession.EverySessionIsDecided | src/main/java/com/aiopenplatform/gateway/PlatformService.java:421-475 | when all threads are through, exactly one outcome has been tried |
| StreamSession.StepKeeps | src/main/java/com/aiopenplatform/gateway/GatewayController.java:102-115 | every access of every thread keeps the invariant of the two flags |
| StreamOutcomes.UndisturbedIsCharged | src/main/java/com/aiopenplatform/gateway/GatewayController.java:160-180 | if no callback starts, every chunk is sent, the provider does not throw and no access does, the session ends charged, with one row, and the client is told the end |
| StreamOutcomes.ReleasedForAReason | src/main/java/com/aiopenplatform/gateway/PlatformService.java:454-475 | under every interleaving a reservation is given back only if a callback started, a chunk was not sent or the provider threw |
| StreamOutcomes.ChargesWhatWasReported | src/main/java/com/aiopenplatform/gateway/PlatformService.java:447-453 | what is charged is what the end of the upstream reported |
| StreamOutcomes.WithoutFailureOneRow | src/main/java/com/aiopenplatform/gateway/PlatformService.java:421-475 | if no access threw, a session that is over was charged or given back, not both, and has exactly one row |
| StreamThreads.StreamSessionState.AbortOnDisconnect | src/main/java/com/aiopenplatform/gateway/GatewayController.java:102-115 | the callback as written, with other threads moving between its accesses, is a stretch of the step system whose own steps throw exactly where a call threw; it ends with an exception if and only if one did |
| StreamThreads.StreamSessionState.StopUpstream | src/main/java/com/aiopenplatform/gateway/GatewayController.java:105-107 | cutting the upstream connection may throw: the callback is then at its end and neither releases nor records; otherwise it goes on |
| StreamThreads.StreamSessionState.AbortStream | src/main/java/com/aiopenplatform/gateway/PlatformService.java:469-475 | the same for the release and failure row |
| StreamThreads.StreamSessionState.RunToTheEnd | src/main/java/com/aiopenplatform/gateway/GatewayController.java:160-195 | the executor's run from the provider's return to its end is a stretch of the step system that begins with what the provider did, and whose own steps throw exactly where a call threw |
| StreamThreads.StreamSessionState.SettleStream | src/main/java/com/aiopenplatform/gateway/PlatformService.java:447-453 | the settlement if `settled` is won, skipped if a callback was faster; it throws if and only if the call did |
| StreamThreads.StreamSessionState.Recover | src/main/java/com/aiopenplatform/gateway/PlatformService.java:454-462 | the release in the catch block, at most once |
| StreamThreads.WentKeeps | src/main/java/com/aiopenplatform/gateway/GatewayController.java:95-197 | whatever these methods do from a good session ends in a good and safe one |
| GatewayRuns.LedgerExplains | src/main/java/com/aiopenplatform/gateway/PlatformService.java:147-198 | over any interleaving, negative reservations included, balance plus frozen equals the sum of the ledger |
| GatewayRuns.AccountIsSolvent | src/main/java/com/aiopenplatform/gateway/PlatformService.java:147-198 | over any interleaving of bookings, calls and sessions that reserve no negative amount: both balances non-negative, their sum equal to the ledger's, frozen equal to the open reservations |
| GatewayRuns.OutcomesAreUnique | src/main/java/com/aiopenplatform/gateway/PlatformService.java:265-475 | every session and call of any run, whatever is reserved, has at most one outcome and one row |
| CallOutcomes.CallIsChargedOrHadTrouble | src/main/java/com/aiopenplatform/gateway/PlatformService.java:265-290 | in any run a plain call that is over is charged and logged once unless the provider or one of its accesses threw, and is given back only if one did |
| CallOutcomes.SettlesWhatWasReported | src/main/java/com/aiopenplatform/gateway/PlatformService.java:265-290 | what a plain call settles is what the provider reported for it |
| GatewayRuns.ReleaseIsNeverSkipped | src/main/java/com/aiopenplatform/gateway/PlatformService.java:368-370 | whenever release runs, its update finds the row |
| GatewayRuns.StreamWithinEstimateSettles | src/main/java/com/aiopenplatform/gateway/PlatformService.java:352-358 | usage within the estimate: a stream's settlement meets both conditions in every reachable state |
| GatewayRuns.CallWithinEstimateSettles | src/main/java/com/aiopenplatform/gateway/PlatformService.java:273-279 | the same for a plain call |
| GatewayRuns.AppendsBalance | src/main/java/com/aiopenplatform/gateway/PlatformService.java:360-362 | at every append the recorded balance plus what is frozen is the ledger's sum so far |
| GatewayRuns.NonnegativeIsExact | src/main/java/com/aiopenplatform/gateway/PlatformService.java:406-415 | the frozen balance stays non-negative in all runs if and only if all accepted reservations are non-negative |
| UpdateChildren.UpdateChildren | nginx-1.18.0/html/token/js/vue.js:5783-5853 | it ends with the parent holding exactly the new children's elements in order; each element comes from a vnode that sameVnode accepts or is new; exactly the old elements not kept are removed, each once |
| UpdateChildren.Turn | nginx-1.18.0/html/token/js/vue.js:5804-5845 | one turn of the loop, lazily built key map included, keeps done prefix, surviving middle, done suffix, and makes progress |
| UpdateChildren.DirectBranch | nginx-1.18.0/html/token/js/vue.js:5804-5825 | the six branches without lookup, and that the vnodes read ahead never go stale |
| UpdateChildren.LookupBranch | nginx-1.18.0/html/token/js/vue.js:5826-5844 | the match found is pulled to the front of the old range, or an element is created there |
| UpdateChildren.CreateKeyToOldIdx | nginx-1.18.0/html/token/js/vue.js:5457-5465 | the map holds the last index of each key of the range and nothing else |
| UpdateChildren.FindIdxInOld | nginx-1.18.0/html/token/js/vue.js:5873-5878 | the index found is in the range, its vnode is defined and accepted, and nothing before it is; if none is found, no defined vnode of the range is accepted, the end index left out |
| UpdateChildren.AddVnodes | nginx-1.18.0/html/token/js/vue.js:5720-5724 | the remaining new vnodes, one after the other in front of the same element |
| UpdateChildren.RemoveVnodes | nginx-1.18.0/html/token/js/vue.js:5740-5752 | the survivors of the old range, each removed once, in order |
| DiffTurns.DirectTurnKeeps | nginx-1.18.0/html/token/js/vue.js:5804-5825 | the invariant of the diff through the first six branches |
| DiffTurns.PlaceTurnKeeps | nginx-1.18.0/html/token/js/vue.js:5826-5844 | the invariant through the lookup, and that the map leads only to vnodes still waiting |
| DiffTurns.FoundWaits | nginx-1.18.0/html/token/js/vue.js:5827-5830 | the key map built once stays right although entries are undefined later |
| DiffResult.OldKeptOnceOrGone | nginx-1.18.0/html/token/js/vue.js:5803-5852 | an old element is in the parent if and only if exactly one new vnode keeps it, and sameVnode accepts the pair |
| DiffResult.KeyedAlwaysKept | nginx-1.18.0/html/token/js/vue.js:5432-5447 | a keyed new vnode keeps the element of the old vnode with its key if and only if sameVnode accepts the pair |
| DiffResult.NoReuseMissed | nginx-1.18.0/html/token/js/vue.js:5827-5838 | an old vnode whose element goes and a new one whose element was created are never a pair that sameVnode accepts, async placeholders apart, keyed or not |
| DiffResult.PlaceholderMisses | nginx-1.18.0/html/token/js/vue.js:5873-5878 | a state in which a new async placeholder gets a created element although an old vnode is accepted for it in both orders |
| DiffResult.FinishesOff | nginx-1.18.0/html/token/js/vue.js:5847-5852 | adding or removing what is left completes the result from any state the loop ends in |
| VDom.SameVnodeIgnoresElm | nginx-1.18.0/html/token/js/vue.js:5432-5455 | sameVnode answers the same before and after patching |
| VDom.SameVnodeByKind | nginx-1.18.0/html/token/js/vue.js:5432-5455 | for a vnode that is no async placeholder, sameVnode accepts exactly those of its kind: key, tag, comment or not, data or none, and for an input its type, text types all alike |
| VDom.MoveTo | nginx-1.18.0/html/token/js/vue.js:5818-5823 | moving a child takes it from one place to another and disturbs nothing else |
| Scheduler.SchedulerState.FlushSchedulerQueue | nginx-1.18.0/html/token/js/vue.js:2961-3007 | the array with its index runs exactly what the set of pending watchers would, the least id always next; the state it leaves for each way of ending |
| Scheduler.SchedulerState.QueueWatcher | nginx-1.18.0/html/token/js/vue.js:3050-3071 | the unrun part stays sorted and duplicate-free with `has` marking exactly its members; a flush is asked for once |
| Scheduler.SchedulerState.Turn | nginx-1.18.0/html/token/js/vue.js:2978-2999 | the least pending watcher is unmarked and run, and the circular count breaks off at the limit |
| Scheduler.QueuedKeeps | nginx-1.18.0/html/token/js/vue.js:3056-3064 | the splice from the end keeps the order |
| Scheduler.ThrownFlushIsStuck | nginx-1.18.0/html/token/js/vue.js:3065-3069 | after a run that threw, any number of watchers queued later are marked and no flush is asked for any more |
| FlushSpec.AllQueuedAreRun | nginx-1.18.0/html/token/js/vue.js:2949-3007 | in a flush not broken off every watcher runs as often as it was queued |
| FlushSpec.NothingIsLost | nginx-1.18.0/html/token/js/vue.js:2977-3000 | in any flush, queued equals run plus still pending, for every watcher |
| FlushSpec.RunsInOrder | nginx-1.18.0/html/token/js/vue.js:2965-2974 | if runs only queue later watchers, the flush runs in order of creation, each once, and is not broken off |
| FlushSpec.BreaksIff | nginx-1.18.0/html/token/js/vue.js:2985-2999 | the limit breaks a flush off if and only if some watcher queues itself more often than the limit |
| FlushSpec.ThrowsIff | nginx-1.18.0/html/token/js/vue.js:2977-3000 | a flush ends with an exception if and only if some run throws and the runs before it neither empty the queue, nor throw, nor are broken off |
| FlushSpec.SelfLoopIsBroken | nginx-1.18.0/html/token/js/vue.js:2985-2999 | a watcher that queues itself runs once more than the limit, and no more |
| FlushSpec.PingPongIsNotBroken | nginx-1.18.0/html/token/js/vue.js:2985-2999 | two watchers that queue each other are not stopped |
| DepTracking.Tracker.Get | nginx-1.18.0/html/token/js/vue.js:3135-3157 | after get, with evaluations, teardowns and hooks inside it, the watcher's deps are exactly what was read, the targets are as before, and the subscriptions are what the reference says |
| DepTracking.Tracker.AddDependency | nginx-1.18.0/html/token/js/vue.js:3162-3171 | a dep is noted once, and subscribed to unless it was before |
| DepTracking.Tracker.CleanUp | nginx-1.18.0/html/token/js/vue.js:3176-3194 | deps not read again are unsubscribed, the new collections take over |
| DepTracking.Tracker.TearDown | nginx-1.18.0/html/token/js/vue.js:3266-3282 | the walk over the deps ends with no dep referring any more to a watcher that was subscribed to its deps; a second teardown does nothing |
| DepTracking.SubscriptionsAreLastReads | nginx-1.18.0/html/token/js/vue.js:680-720 | after any evaluations, teardowns and hooks, inside each other, before or after a teardown, a watcher is among a dep's subscribers exactly once if it read the dep last time, else not at all; but a torn one is not, if it read the dep in its last evaluation before the teardown and in all since |
| DepTracking.StaysForgottenIff | nginx-1.18.0/html/token/js/vue.js:3499-3509 | a torn watcher that no dep refers to stays so through an evaluation if and only if it reads nothing that it had not read the last time |
| DepTracking.TornWatcherComesBack | nginx-1.18.0/html/token/js/vue.js:3499-3509 | evaluated, torn down and evaluated again with another read, a watcher is among the subscribers again |
| DepTracking.ComputedPassesItsDepsOn | nginx-1.18.0/html/token/js/vue.js:3499-3509 | reading a computed property subscribes the reader to exactly what the property reads |
| DepGraph.PerformOneKeeps | nginx-1.18.0/html/token/js/vue.js:3135-3194 | every read, evaluation, depend, teardown or hook, inside any evaluations, leaves what the reference semantics says |
| DepGraph.CleanupKeeps | nginx-1.18.0/html/token/js/vue.js:3176-3194 | cleaning up restores the exactness of the subscriptions |
| DepGraph.TeardownKeeps | nginx-1.18.0/html/token/js/vue.js:3266-3282 | a teardown at any time, inside evaluations and of a watcher under evaluation too, keeps the subscriptions as the reference has them |
| DepGraph.TeardownForgets | nginx-1.18.0/html/token/js/vue.js:3266-3282 | teardown of a watcher subscribed to its deps, as every active one outside its evaluation is, takes it out of every dep |
| DepHooks.HookRestoresIff | nginx-1.18.0/html/token/js/vue.js:2914-2931 | inside an evaluation, code under pushTarget() leaves the current target and the stack as they were if and only if it evaluates nothing and runs no further such code |
| DepHooks.ReadsAreLost | nginx-1.18.0/html/token/js/vue.js:713-720 | a getter that runs a hook which has another watcher evaluated: whatever it reads afterwards, none of it is among the watcher's deps |
| HtmlParser.Parser.ParseHTML | nginx-1.18.0/html/token/js/vue.js:8785-8909 | it ends for every text; what happens is what the text's tokens come to, one after the other; it throws if and only if one of them is a comment to be kept outside all elements open there, and otherwise closes everything, the events well nested |
| HtmlTokens.LeadingCommentThrows | nginx-1.18.0/html/token/js/vue.js:9300-9306 | any text that begins with a comment makes it throw when comments are kept |
| HtmlTokens.CommentAloneThrows | nginx-1.18.0/html/token/js/vue.js:8794-8806 | a text, a tokeniser and options with which it does |
| HtmlParser.Parser.ParseEndTag | nginx-1.18.0/html/token/js/vue.js:8984-9035 | what EndTag says, which is: the last open element of the name and all above it, or the stray br and p |
| HtmlEvents.EndTagCloses | nginx-1.18.0/html/token/js/vue.js:8990-9024 | if the i-th open element is the last with the name, exactly the i elements below it stay open, and exactly the ends of the others are emitted, the topmost first |
| HtmlEvents.StrayEndTag | nginx-1.18.0/html/token/js/vue.js:9025-9034 | a name that is not open changes nothing, except that a br becomes an element and a p an empty one |
| HtmlEvents.EndOfText | nginx-1.18.0/html/token/js/vue.js:8908-8909 | at the end of the text everything is closed, each element once, the topmost first |
| HtmlParser.Parser.HandleStartTag | nginx-1.18.0/html/token/js/vue.js:8939-8982 | the automatic closings, then the element |
| HtmlParser.Parser.OnEnd | nginx-1.18.0/html/token/js/vue.js:9242-9253 | parse's own stack is popped, never when empty |
| HtmlTokens.TakeKeeps | nginx-1.18.0/html/token/js/vue.js:8794-8900 | every token keeps lastTag the top of the stack and parse's stack its mirror |
| HtmlTokens.DocumentIsReadBack | nginx-1.18.0/html/token/js/vue.js:8939-9035 | the tokens of a proper document, read anywhere, give back what it means: with end tags left out wherever what follows closes the element, with elements of plain text and with comments; what is left open is what its last missing end tags leave open |
| HtmlTokens.WholeDocument | nginx-1.18.0/html/token/js/vue.js:8785-8909 | a whole proper document is read back, end tags left out at its end included |
| HtmlTokens.WrittenIsFound | nginx-1.18.0/html/token/js/vue.js:8791-8905 | in the text that the tokens were written as, with newlines that do not count, exactly these tokens are found, in order |
| HtmlTokens.TextIsReadBack | nginx-1.18.0/html/token/js/vue.js:8785-8909 | parsing the text of a proper document does not throw, and comes to what the document means |
| HtmlEvents.RoomIsMade | nginx-1.18.0/html/token/js/vue.js:8943-8950 | after the automatic closings nothing that ends a paragraph stands directly in a p, and no self-closing element in its own kind |
| HtmlEvents.StartTagKeeps | nginx-1.18.0/html/token/js/vue.js:8939-8982 | a start tag keeps both stacks and that placement |
| HtmlEvents.EndTagKeeps | nginx-1.18.0/html/token/js/vue.js:8984-9035 | an end tag only takes elements off the top; without a name it takes all |
| NormalizeChildren.NormalizeArrayChildren | nginx-1.18.0/html/token/js/vue.js:2214-2260 | the recursive loop computes the normalised list |
| NormalizeChildren.ContentIsKept | nginx-1.18.0/html/token/js/vue.js:2214-2260 | the result shows the same characters and vnodes in the same order as the nested children |
| NormalizeChildren.TextsAreApart | nginx-1.18.0/html/token/js/vue.js:2225-2247 | no two text nodes stand side by side |
| DefaultKeys.DefaultKeysDiffer | nginx-1.18.0/html/token/js/vue.js:2249-2254 | the vnodes of the normalised list that were given a default key have pairwise different keys, whatever keys the others came with |
| DefaultKeys.PlacesAreRight | nginx-1.18.0/html/token/js/vue.js:2214-2260 | a vnode of the normalised list was given a key exactly where it is said to be: it came without one, and the key spells the path to its place; every other is as it came or a text |
| KeepAlive.KeysAreLastUsed | nginx-1.18.0/html/token/js/vue.js:4990-5001 | after any accesses with keys of different texts, numbers or strings, the keys are the last max distinct ones ordered by last access, each with its entry |
| KeepAlive.OneKindIsUnmixed | nginx-1.18.0/html/token/js/vue.js:4985-4990 | strings among themselves, and numbers among themselves, always have different texts when they differ |
| KeepAlive.InstanceIsKept | nginx-1.18.0/html/token/js/vue.js:4990-4994 | as long as a key stays among them, every access shows the same instance |
| KeepAlive.KeepAliveInstance.Render | nginx-1.18.0/html/token/js/vue.js:4963-5007 | a cached instance is revived and made freshest, a new one is cached and the oldest pruned; one that is not included, or excluded, leaves the cache alone |
| KeepAlive.KeepAliveInstance.PruneCache | nginx-1.18.0/html/token/js/vue.js:4898-4911 | exactly the named entries that the filter does not want go, in whatever order the walk goes, and exactly their instances are destroyed, except where the vnode shown has the tag; keys and entries stay in step if and only if those were cached under strings |
| KeepAlive.AccessDestroys | nginx-1.18.0/html/token/js/vue.js:4997-5001 | an access destroys exactly the instance of the entry it prunes, unless the vnode shown has its tag |
| KeepAlive.FilterMatchesRender | nginx-1.18.0/html/token/js/vue.js:4938-4978 | a new include or exclude takes out exactly those named entries that render would not cache any more |
| KeepAlive.AccessKeepsIff | nginx-1.18.0/html/token/js/vue.js:4990-5002 | an access keeps the keys duplicate-free and equal to the live entries if and only if its key is not cached as another key of the same text |
| KeepAlive.AlwaysConsistentIff | nginx-1.18.0/html/token/js/vue.js:4898-4925 | over a whole life of accesses and filterings the two stay in step if and only if every access is such and every filtering takes out only entries cached under strings |
| KeepAlive.StringKeysAreSafe | nginx-1.18.0/html/token/js/vue.js:4898-4925 | with strings for keys they always stay in step |
| KeepAlive.NumberStandsTwice | nginx-1.18.0/html/token/js/vue.js:4902-4924 | a component with a number for a key, shown, filtered out and shown again, stands in the keys twice |
| CacheLevels.GetIsRight | src/main/java/com/aiopenplatform/cache/MultiLevelCacheService.java:63-150 | a read through a coherent cache gives what the tables say, null markers included, and leaves it coherent |
| CacheLevels.FirstLevelAnswers | src/main/java/com/aiopenplatform/cache/MultiLevelCacheService.java:63-95 | the first level that has the key answers, whatever the tables say, and only the levels above it change, getting its answer |
| CacheLevels.OneLoadServesAll | src/main/java/com/aiopenplatform/cache/MultiLevelCacheService.java:109-144 | what one request has loaded is given to every other, whatever the tables say by then, until it is evicted |
| IdLists.FieldsMakeText | src/main/java/com/aiopenplatform/service/impl/TokenActivityServiceImpl.java:50-51 | the fields of any text hold no comma, and with commas between them make the text |
| IdLists.TextHasTheseFields | src/main/java/com/aiopenplatform/service/impl/TokenActivityServiceImpl.java:50-51 | no other list of fields makes it |
| IdLists.OnlyEmptyEndIsDropped | src/main/java/com/aiopenplatform/service/impl/TokenActivityServiceImpl.java:50-51 | of the fields exactly the empty ones at the end are dropped |
| IdLists.DigitsSpell | src/main/java/com/aiopenplatform/service/impl/TokenActivityServiceImpl.java:52-52 | digits are read as the number that they spell after any leading zeros |
| IdLists.ListIsRead | src/main/java/com/aiopenplatform/service/impl/TokenActivityServiceImpl.java:50-52 | numbers with commas between them, blanks around them and commas after them are read as these numbers, in order |
| IdLists.DetailShowsItsList | src/main/java/com/aiopenplatform/service/impl/TokenActivityServiceImpl.java:49-58 | the aggregate of a running activity with such a list shows the rows of its numbers that exist, in the list's order, and no others |
| IdLists.BlankListShowsNone | src/main/java/com/aiopenplatform/service/impl/TokenActivityServiceImpl.java:50-50 | with nothing but blanks it shows none |
| CacheService.CacheNode.Read | src/main/java/com/aiopenplatform/cache/MultiLevelCacheService.java:63-150 | the same of the methods as written, with every lock given back; the tables are asked only when no level has the key, and then behind the key's lock |
| CacheService.CacheNode.GetActivityDetail | src/main/java/com/aiopenplatform/service/impl/TokenActivityServiceImpl.java:39-61 | the aggregate is built from SKUs read through the same cache; a field that is no number throws and stores nothing; every query is made behind the lock of its key, and none if some level has the aggregate |
| CacheService.CacheNode.GetSkuWithCache | src/main/java/com/aiopenplatform/service/impl/TokenSkuServiceImpl.java:64-68 | the four levels in order; the table is asked once, behind the key's lock, if no level has the key, and else not at all |
| CacheService.LockStaysWithOwner | src/main/java/com/aiopenplatform/cache/MultiLevelCacheService.java:209-217 | whatever the others take and release, a lock stays with its owner until the lease ends or the owner gives it back |
| CacheService.TakenOverStays | src/main/java/com/aiopenplatform/cache/MultiLevelCacheService.java:214-217 | once a lock has lapsed and been taken over, the former owner's release changes nothing |
| CacheService.CacheNode.ListOnlineActivities | src/main/java/com/aiopenplatform/service/impl/TokenActivityServiceImpl.java:64-77 | the reads of one request in a row give what the tables say of every activity found, or throw where one cannot be read |
| CacheService.CacheNode.HandleSkuChange | src/main/java/com/aiopenplatform/cache/BinlogCacheSyncListener.java:156-198 | the row is written through or dropped, and each matched aggregate deleted, in any order |
| CacheService.CacheNode.ChangeSku | src/main/java/com/aiopenplatform/service/impl/TokenSkuServiceImpl.java:86-115 | the row, then the SKU's key and each aggregate found are evicted; a missing SKU changes nothing |
| CacheUpdates.UpdateIsExact | src/main/java/com/aiopenplatform/service/impl/TokenSkuServiceImpl.java:86-115 | an update changes the one row, takes the SKU and exactly the aggregates matched by FIND_IN_SET out of every level, and touches no other key |
| CacheUpdates.SyncIsExact | src/main/java/com/aiopenplatform/cache/BinlogCacheSyncListener.java:156-198 | the event puts the present row into Redis, or takes the SKU out if there is none, takes exactly the matched aggregates out, and touches no other key |
| CacheUpdates.UpdateIsCoherentIff | src/main/java/com/aiopenplatform/service/impl/TokenSkuServiceImpl.java:109-114 | after a changed row the cache is coherent if and only if no cached aggregate reads the SKU through a text that FIND_IN_SET does not match |
| CacheUpdates.DeductIsCoherentIff | src/main/java/com/aiopenplatform/service/impl/TokenOrderServiceImpl.java:169-174 | a grant's stock update leaves the cache coherent if and only if neither the SKU nor an aggregate that reads it is cached |
| CacheUpdates.SyncRestoresIff | src/main/java/com/aiopenplatform/cache/BinlogCacheSyncListener.java:156-198 | after any row inserted, changed or deleted, the binlog's event makes the cache coherent again if and only if no cached aggregate is missed |
| CacheUpdates.CanonicalListsAreSafe | src/main/java/com/aiopenplatform/service/impl/TokenSkuServiceImpl.java:109-114 | with plain decimal lists every update keeps the cache coherent |
| CacheUpdates.LeadingZeroIsMissed | src/main/java/com/aiopenplatform/controller/AdminController.java:287-298 | a text that the validation accepts, that is read as the SKU, and that FIND_IN_SET does not match |
| CacheRuns.StepKeeps | src/main/java/com/aiopenplatform/cache/MultiLevelCacheService.java:63-197 | reads, late stores, updates, commits and events of any requests: each keeps the cache coherent but for the SKUs whose event is still to come; of reads and late stores exactly the clean ones do |
| CacheRuns.EveryReadIsRight | src/main/java/com/aiopenplatform/cache/MultiLevelCacheService.java:63-197 | after any run of overlapping requests whose reads are clean, a new request gets what the tables say of everything that shows no SKU still waiting for its event |
| CacheRuns.EmptyCacheIsCoherent | src/main/java/com/aiopenplatform/cache/MultiLevelCacheService.java:63-150 | such a run may start from empty levels over any tables |
| CacheRuns.OneByOneIsClean | src/main/java/com/aiopenplatform/service/impl/TokenSkuServiceImpl.java:86-115 | with plain decimal lists and requests one after the other, every read is clean and nothing ever waits |
| CacheReads.RebuildIsCoherentIff | src/main/java/com/aiopenplatform/service/impl/TokenActivityServiceImpl.java:39-61 | rebuilding an absent aggregate keeps the cache coherent if and only if the request's scope agrees with the tables on every SKU that its fields name |
| CacheReads.ReadKeepsIff | src/main/java/com/aiopenplatform/cache/MultiLevelCacheService.java:63-150 | any read, with any scope and any events outstanding, keeps the shared levels as coherent as they were if and only if it is clean in that sense |
| CacheRuns.OldScopeSpoilsAggregate | src/main/java/com/aiopenplatform/cache/MultiLevelCacheService.java:63-68 | two reads of one request with another's update between them: the aggregate is stored with the old row |
| CacheRuns.LateStoreIsClean | src/main/java/com/aiopenplatform/cache/MultiLevelCacheService.java:109-144 | what was loaded at one point of a run may be stored at any later one, if nothing that it shows has been changed in between |
| CacheRuns.LateStoreSpoils | src/main/java/com/aiopenplatform/cache/MultiLevelCacheService.java:109-144 | from any coherent cache, a SKU row loaded before a change and stored after the change and its evictions leaves the cache incoherent |
| IdWorker.IdsNeverRepeat | src/main/java/com/aiopenplatform/utils/RedisIdWorker.java:16-27 | under any clock, no prefix gets an id twice, with fewer than 2^32 ids a day and seconds within one window of 2^32 |
| IdWorker.RedisIdWorker.NextId | src/main/java/com/aiopenplatform/utils/RedisIdWorker.java:18-27 | the counter of the date is raised, and the id differs from all the prefix has had |
| IdWorker.PackDecodes | src/main/java/com/aiopenplatform/utils/RedisIdWorker.java:26-26 | second and count can be read back from an id |
| IdWorker.PackOrders | src/main/java/com/aiopenplatform/utils/RedisIdWorker.java:26-26 | ids are ordered by second, then by count |
| IdWorker.SameIdIff | src/main/java/com/aiopenplatform/utils/RedisIdWorker.java:26-26 | two ids are the same if and only if the counts are, and the seconds up to a multiple of 2^32 |
| IdWorker.TooManyInADay | src/main/java/com/aiopenplatform/utils/RedisIdWorker.java:24-26 | with 2^32 ids in a day an id is that of the next second |

## Left out

- The claim's eligibility checks (login, running activity, cached SKU) before the Lua script, and everything an endpoint does around these services.
- Redis, MySQL, stream and lock internals: each access is one atomic step; the leases of users' locks do not lapse; XCLAIM's idle time and the parsing of stream entries are not modelled.
- API key rate limits: a refusal happens before anything modelled here.
- Settlement transactions whose commit is in doubt, and a process that stops: a reservation then stays open, which the run theorems allow at any point.
- Integer widths of token counts and credits; only the id generator's 64 bits are written out.
- `Credits.CreditTables.Chat`: nothing else is booked on the account between its reserve and its settle; all interleavings are in `GatewayRuns`.
- Credits of several users at once: `Credits` proves that an operation leaves other users alone, and `GatewayRuns` follows one user.
- Server-sent event framing, provider protocols, JSON.
- The diff with `removeOnly`, transition hooks that delay a removal, and the patching of a vnode's own children.
- Keys of the child diff that are not strings, or that meet names of `Object.prototype` in the key map.
- The flush is followed for any finite number of runs; that it ends is false of the code.
- `updated` and `activated` hooks after a flush.
- Evaluation of a watcher inside its own evaluation.
- `DepTracking.SubscriptionsAreLastReads`: hooks inside an evaluation that have something evaluated leave a stack which `DepHooks` describes; the runs here have hooks inside an evaluation only read, depend and tear down.
- Regular expressions of the tokeniser, attributes, directives, namespaces and the tree that `parse` builds; only its stack and the events are modelled.
- `HtmlTokens.TextIsReadBack`: the tokeniser is assumed to find each written token at the front of what is left; a script, style or textarea without its closing tag is not part of the documents.
- `NormalizeChildren.ContentIsKept`: symbols as children, which throw when merged, are not modelled.
- `KeepAlive.KeepAliveInstance.PruneCache`: in what order pruned instances are destroyed is not stated.
- Expiry of cache entries and its jitter, other nodes' JVM caches, the message that invalidates them, and waiting for a lock that another thread holds.
- The second look into Redis after a cache lock is taken: within one step it finds what the first look found.
