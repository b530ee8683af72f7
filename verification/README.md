# redis-semaphore: verified model

A Dafny model of the three protocols of the library that share Redis: the sliding-window rate
limiter, the semaphore used as a lease, and the dispatch queue. `dafny verify dfyconfig.toml`
checks everything.

Each Lua script is one atomic step; all times are whole milliseconds. A Redis key with a TTL is
present while `now <= expiry`. Stored scripts and client objects are classes whose methods are
proved equal to functions of the state before the call; the laws are then proved about those
functions, over whole runs.

**Rate limiter.** `RateLog`, `RateKeys` and `RateScripts` say what the scripts do to one limit's
log and cached total, and to all limits of a request, `RateRuns` what calls do one after the
other; `RateStore` holds the scripts' loops
(recount, eviction, the 128-entry chunked walk, the two phases of an acquire). `RateLedger` is the
ideal limiter: all charges for ever, summed on every call, the retry time found by trying one
millisecond after the other. `RateRefinement` proves that over every run the scripts give the
ledger's answers, and `RateCalls` says by configuration and ledgers alone what each call does.
`RateLaws` has window safety and the exact retry time, `RateResends` the resends and the ways a
limit can be exceeded, `RateClient` the costs and the blocking wait, `RateTimeout` its timeout,
`RatePermit` adjustments by permit. `Members` ties the stored strings to the decoded members.

**Semaphore.** `SemaphoreScripts` and `SemaphoreStore` are the scripts, `SemaphoreLaws` says of the
stored owners alone what they answer, `SemaphoreClient` is one instance's state, `Lease` the
protocol of many clients with late, lost and repeated calls, `Heartbeat` the refresh loop.

**Dispatch queue.** `Dispatch` is a transition system: a stream with its consumer group, and
workers whose actions are the stretches of their coroutines between two awaits. A request, its
execution on the server and its reply are separate steps, so that touches, finishes, crashes and
other workers happen in between; a request that was given up on may still run later.
`DispatchWorker` updates a worker's own fields in place, action by action, and keeps the invariant
that `DispatchSafety` states and proves over whole runs. `DispatchLaws` says what it means,
`DispatchRequeue` follows a requeued job until it starts again, `DispatchOrder` has the order of
first runs and `DispatchDelivery` where they come from, `DispatchLeading` and `DispatchService` say
what a leader does next and that it can serve and leave, `DispatchSubmit` has the submit script and
its deduplication and bound.

## What turned out different from what the comments say

- In RATE_ACQUIRE the flag `already`, set by one limit, also switches off the checks of the later
  ones (`src/redis_semaphore/lua_scripts.py:341-344`). `RateResends.CarriedFlagExceeds` gives the
  exact condition, on the keys before the call, under which an acquire exceeds a limit that was
  kept; `CarriedFlagOverfills` is a run of three calls that does. A resend is covered only while its
  member is recorded in every log it is charged to.
- An adjustment that lowers a cost can raise the consumption: exactly if it puts back a cost at a
  time inside the window and finds neither the old nor the new member
  (`RateResends.LoweringRaises`). That happens in two ways. A resent acquire answers the time of the
  resend, not the recorded one (`:370`), and an adjustment by that time comes after the charge left
  its window (`LateAdjustOverfills`; while the charge is in its window the later time does no harm,
  `RateLaws.AmendSafe`). Or the reply of an adjustment was lost and its client gave up: the permit
  is left unchanged (`src/redis_semaphore/rate_limiter.py:335`), so the next adjustment names a cost
  the log does not hold (`LostAdjustOverfills`).
- For the same reason a permit's costs are not always what the log holds. `RatePermits.SettleHolds`
  gives the exact condition: the adjustment names the logged cost as its old or its new one, or the
  charge has left its window.
- The heartbeat's first deadline is taken after the acquire returned
  (`src/redis_semaphore/heartbeat.py:124`); for any keys and any limit it is covered until it runs
  out exactly if no time passed in between (`Lease.FirstDeadlineCovered`; `FirstDeadlineExposed`
  shows two clients with one slot). The lease theorem is about deadlines set by successful
  refreshes, and about the expiries the server reported.
- The comment on the cleanup in the acquire script says `score < now`; the code removes
  `score <= now` (`src/redis_semaphore/lua_scripts.py:85-86`), while a refresh takes only
  `score < now` for lost (`:168`). The model follows the code.

## Assumptions

- One nondecreasing server clock; clients and server advance together.
- A touch, or the claim of a hand-back, that failed at the worker has run by then or never will.
  Finishing transactions, reads, reclaim scans and the commands that drop a job may still run at
  any later time, also after their worker gave up, left the queue or died.
- Handlers do not call `admit()` while they are being cancelled.
- A worker judges a job's deadline by the server's clock.
- First-in-first-out and serialized admission are proved for runs in which no two workers lead the
  queue at the same moment; everything else about the queue holds without that.

## Model

| member | source | states |
|---|---|---|
| Members.CostRoundTrip | src/redis_semaphore/lua_scripts.py:252-254 | The cost read back from a stored member is the stored one, whatever the identifier contains |
| Members.EncodeInjective | src/redis_semaphore/lua_scripts.py:243 | Two requests, or two costs of one request, never share a member string |
| RateKeys.EvictDrift | src/redis_semaphore/lua_scripts.py:277-302 | From any stored total, eviction keeps the total's error, or makes it zero exactly when the log drains or the total is missing or goes negative |
| RateKeys.RebuiltDiesWithLog | src/redis_semaphore/lua_scripts.py:262-274 | A total that was missing or would go negative is rebuilt as the sum of the log, and expires with it |
| RateKeys.RecordDrift | src/redis_semaphore/lua_scripts.py:382-392 | Charging keeps the total's error |
| RateKeys.SettleDrift | src/redis_semaphore/lua_scripts.py:433-447 | Adjusting keeps the total's error, or makes it zero when the log drains |
| RateLaws.ScriptsKeepDrift | src/redis_semaphore/lua_scripts.py:251-474 | Compared with the stored keys no script - acquire, adjust or status - enlarges any limit's error; a missing total or an empty window makes it zero |
| RateKeys.EvictSound | src/redis_semaphore/lua_scripts.py:277-302 | In reachable states the total exists iff the log does and equals its sum, both expire together; eviction keeps this and leaves exactly the entries after the cutoff |
| RateKeys.VisibleSound | src/redis_semaphore/lua_scripts.py:247-248 | Key expiry drops only entries that are outside the window already |
| RateKeys.RecordSound | src/redis_semaphore/lua_scripts.py:377-392 | Charging keeps log, total and TTLs consistent |
| RateKeys.SettleSound | src/redis_semaphore/lua_scripts.py:425-448 | Adjusting keeps log, total and TTLs consistent |
| RateScripts.RetryIsLongestWait | src/redis_semaphore/lua_scripts.py:333-368 | The retry time is positive exactly if a limit is violated, and the longest wait of the violated ones |
| RateStores.RateStore.Weigh | src/redis_semaphore/lua_scripts.py:278-282 | The loop adds up the costs of the expired members |
| RateStores.RateStore.Rebuild | src/redis_semaphore/lua_scripts.py:262-274 | The total becomes the sum of the log, and does not outlive it |
| RateStores.RateStore.EvictKeys | src/redis_semaphore/lua_scripts.py:277-302 | The in-place eviction leaves the keys, and returns the units, of its specification |
| RateStores.RateStore.ChunkedWait | src/redis_semaphore/lua_scripts.py:344-366 | The walk in chunks of 128 ends, and stops at the entry where a plain oldest-first walk stops |
| RateStores.RateStore.CheckLimits | src/redis_semaphore/lua_scripts.py:329-368 | Phase 1 over any number of limits: every limit evicted, the flag `already` and the retry time as specified |
| RateStores.RateStore.ChargeLimits | src/redis_semaphore/lua_scripts.py:376-394 | Phase 2 charges every limit with a positive cost once, at one time, and reports the new totals |
| RateStores.RateStore.RateAcquire | src/redis_semaphore/lua_scripts.py:317-398 | The script's reply and the whole new state of all keys |
| RateStores.RateStore.RateAdjust | src/redis_semaphore/lua_scripts.py:414-452 | The script's reply and the whole new state of all keys |
| RateStores.RateStore.RateStatus | src/redis_semaphore/lua_scripts.py:463-474 | Reports the consumption of every limit; only evicts |
| RateStores.RateStore.Replay | src/redis_semaphore/lua_scripts.py:317-474 | Any sequence of calls leaves the state, and gives the replies, of the run's specification |
| RateLedgers.WalkStops | src/redis_semaphore/lua_scripts.py:345-364 | The walk stops at the first score by which enough units will have left, not before |
| RateLedgers.WalkIsFirstFit | src/redis_semaphore/lua_scripts.py:344-366 | The wait is the first millisecond at which the request fits, also after an overshoot; for a cost within its limit it is the moment an entry leaves, never the default |
| RateRefinement.AcquireRefines | src/redis_semaphore/lua_scripts.py:317-398 | RATE_ACQUIRE replies and evolves exactly like the ideal ledger |
| RateRefinement.AdjustOneRefines | src/redis_semaphore/lua_scripts.py:425-449 | RATE_ADJUST evolves exactly like amending the ideal ledger, and the total is its consumption |
| RateRefinement.RunRefines | src/redis_semaphore/lua_scripts.py:251-474 | Over every run of acquires, adjustments and status calls the replies are the ideal ledger's |
| RateCalls.AdmittedExactly | src/redis_semaphore/lua_scripts.py:317-398 | By configuration and ledgers alone: a call is admitted iff every limit has room for its cost, costs nothing, or comes at or after a limit that knows the request; what it charges, and the windows it reports |
| RateCalls.FreshAdmittedExactly | src/redis_semaphore/lua_scripts.py:341-344 | A request recorded nowhere is admitted iff consumed + cost is at most the limit for every limit it is charged to |
| RateCalls.RetriedExactly | src/redis_semaphore/lua_scripts.py:333-370 | With nothing in between, the call that was denied succeeds at a later instant iff it is at least the replied retry time later |
| RateCalls.AdjustedExactly | src/redis_semaphore/lua_scripts.py:414-452 | Each limit of an adjustment moves from its old to its new cost, and its window is reported |
| RateCalls.ReportedExactly | src/redis_semaphore/lua_scripts.py:463-474 | A status call reports what every window holds, and charges nothing |
| RateCalls.CountsOneWindow | src/redis_semaphore/lua_scripts.py:277-285 | A charge counts from the instant it is made, for exactly one window |
| RateCalls.RenewedExactly | src/redis_semaphore/lua_scripts.py:245-259 | Log and total expire together two windows after the last call that charged the limit or put a cost back; other calls leave that time alone |
| RateLaws.AmendSafe | src/redis_semaphore/lua_scripts.py:425-449 | An adjustment that lowers a recorded charge, gives it back, or repeats either keeps every window of a limit, also if it names a later time than the recorded one |
| RateLaws.WindowSafety | src/redis_semaphore/lua_scripts.py:329-396 | Over every disciplined run - permits of resent acquires, resent adjustments and resent refunds included - for every limit and every time t, the charges in (t - window, t] are at most the limit |
| RateLaws.ScriptsKeepWindows | src/redis_semaphore/lua_scripts.py:329-396 | The same for the scripts from absent keys, which admit exactly that ledger's charges |
| RateLaws.RetryExact | src/redis_semaphore/lua_scripts.py:314-316 | A denied fresh request is admitted by all limits from the retry time on, and denied at every earlier instant |
| RateLaws.SweepTwice | src/redis_semaphore/lua_scripts.py:333-339 | A denied request leaves no trace in a repetition at the same instant |
| RateResends.AllOrNothing | src/redis_semaphore/lua_scripts.py:370-396 | A denied request changes no live charge; an admitted fresh one adds exactly its cost, at one time, to each limit it is charged to |
| RateResends.ResentAcquire | src/redis_semaphore/lua_scripts.py:330-343 | A resend recorded in all charged logs is admitted, even over the limit, and changes no log or total |
| RateResends.AdmittedIsRecorded | src/redis_semaphore/lua_scripts.py:382-391 | An admitted request is found by its resend while it is in all its windows |
| RateResends.CarriedFlagExceeds | src/redis_semaphore/lua_scripts.py:329-394 | On keys that keep their limits, an acquire exceeds one iff some limit has neither room nor the record, and every limit without room is checked after the flag was set |
| RateResends.FreshWithinLimits | src/redis_semaphore/lua_scripts.py:341-344 | A request without any record keeps every limit when admitted |
| RateResends.CarriedFlagOverfills | src/redis_semaphore/lua_scripts.py:341-344 | Three calls from absent keys after which a limit of 10 holds 20 |
| RateResends.FirstAdjust | src/redis_semaphore/lua_scripts.py:433-443 | A first adjustment moves exactly old to new cost at the original score |
| RateResends.LateAdjustAddsNothing | src/redis_semaphore/lua_scripts.py:410-412 | Once the request left its window nothing is re-added |
| RateResends.AdjustTwice | src/redis_semaphore/lua_scripts.py:437-442 | A resent adjustment, at any later time, changes nothing but what eviction does |
| RateResends.LoweringRaises | src/redis_semaphore/lua_scripts.py:433-443 | An adjustment that does not raise the cost raises the consumption iff it puts a cost back inside the window and finds neither member |
| RateResends.LateAdjustOverfills | src/redis_semaphore/lua_scripts.py:370-442 | A run in which the time of a resent acquire lets a lowering adjustment exceed the limit |
| RateResends.LostAdjustOverfills | src/redis_semaphore/lua_scripts.py:433-443 | A run in which two lowering adjustments, the first with its reply lost, exceed the limit |
| RateClients.ResolveCosts | src/redis_semaphore/rate_limiter.py:131-148 | Costs are accepted iff no name is unknown and each fits its limit - the one cost, or the one by name, or 1 for a limit missing from the mapping; otherwise the first offender is reported |
| RateClients.NextWait | src/redis_semaphore/rate_limiter.py:217-238 | The sleep lasts at least retry_after and ends by the deadline; the timeout is raised iff retry_after is past it |
| RateClients.AcquireLoop | src/redis_semaphore/rate_limiter.py:264-272 | Every sleep covers its retry time and ends by the deadline, every attempt follows the sleep before it; how the loop ends, and that it does within the milliseconds of the timeout |
| RateClients.LoneCallerTwoAttempts | src/redis_semaphore/rate_limiter.py:268-272 | The loop of a lone caller, answered by RATE_ACQUIRE, makes at most two attempts, the second admitted |
| RateTimeouts.SettleUnits | src/redis_semaphore/lua_scripts.py:433-443 | An adjustment that gives nothing back takes no units out of any window |
| RateTimeouts.TimeoutIsFinal | src/redis_semaphore/rate_limiter.py:225-236 | The timeout is raised only if no attempt up to the deadline could succeed, whatever others acquire and however they raise the costs of their own permits meanwhile |
| RatePermits.RateLimiter.ResolveAdjustment | src/redis_semaphore/rate_limiter.py:150-176 | Which permits and costs are refused, in the code's order; otherwise each limit's new cost is the one cost, or the one by name, or the permit's old one |
| RatePermits.RateLimiter.AdjustArgs | src/redis_semaphore/rate_limiter.py:369-381 | A limit goes to Redis iff its cost changes, with its window, its old and its new cost |
| RatePermits.RateLimiter.Adjust | src/redis_semaphore/rate_limiter.py:337-350 | Each limit is settled from the permit's old cost to the one asked for, iff the two differ; the permit has the new costs and shows the consumption reported, or what it showed; a refusal changes nothing |
| RatePermits.RateLimiter.ApplyAdjustment | src/redis_semaphore/rate_limiter.py:383-392 | The permit's costs and the consumption of the limits that were sent are updated in place, no other |
| RatePermits.NothingChanges | src/redis_semaphore/rate_limiter.py:339-340 | Without a changed cost the call would have changed nothing |
| RatePermits.SettleHolds | src/redis_semaphore/lua_scripts.py:433-443 | After an adjustment, first call or resend, the log holds the permit's new cost iff the adjustment knew the logged cost or the charge is gone |
| RatePermits.PermitIsItsCharge | src/redis_semaphore/rate_limiter.py:315-350 | Over any run, resent adjustments included, the logs hold a permit's current cost, once, at its admission time, until it leaves the window |
| RatePermits.AdmissionHolds | src/redis_semaphore/rate_limiter.py:190-199 | An admitted request's permit starts out that way |
| SemaphoreScripts.SweptKeeps | src/redis_semaphore/lua_scripts.py:47-86 | Neither owners-key expiry nor the cleanup removes an unexpired entry |
| SemaphoreScripts.AcquireKeeps | src/redis_semaphore/lua_scripts.py:75-121 | Never more owners than slots; no other unexpired entry is touched |
| SemaphoreScripts.AcquireEntry | src/redis_semaphore/lua_scripts.py:91-119 | A grant issues the next token and the caller's entry; a busy reply issues none |
| SemaphoreScripts.ReleaseKeeps | src/redis_semaphore/lua_scripts.py:131-138 | The caller's entry is gone, no other unexpired one is touched |
| SemaphoreScripts.RefreshKeeps | src/redis_semaphore/lua_scripts.py:152-182 | No other unexpired entry is touched |
| SemaphoreScripts.RefreshEntry | src/redis_semaphore/lua_scripts.py:160-180 | An entry not before now is extended, otherwise the caller has none left |
| SemaphoreLaws.SweptExactly | src/redis_semaphore/lua_scripts.py:85-86 | The cleanup leaves exactly the unexpired owners, as they were |
| SemaphoreLaws.GrantedExactly | src/redis_semaphore/lua_scripts.py:85-119 | A slot is granted iff the caller holds an unexpired entry, or fewer than limit stored owners are unexpired |
| SemaphoreLaws.AcquiredExactly | src/redis_semaphore/lua_scripts.py:91-119 | Owners, token, expiry and occupancy after an acquire, told of the stored owners; the occupancy reported is the number of owners left |
| SemaphoreLaws.KeyOutlivesOwners | src/redis_semaphore/lua_scripts.py:52-58 | After every call that writes an entry the key lives exactly one timeout longer than its longest-lived owner |
| SemaphoreLaws.RefreshedExactly | src/redis_semaphore/lua_scripts.py:160-180 | A refresh succeeds iff the stored entry is not before now; only the caller's entry changes |
| SemaphoreLaws.ReleasedExactly | src/redis_semaphore/lua_scripts.py:131-138 | A release takes out the caller's entry and nothing else |
| SemaphoreStores.SemaphoreStore.Acquire | src/redis_semaphore/lua_scripts.py:75-121 | The script's reply and the new keys |
| SemaphoreStores.SemaphoreStore.BumpTtl | src/redis_semaphore/lua_scripts.py:52-58 | The owners key outlives its longest-lived member by one timeout |
| SemaphoreStores.SemaphoreStore.Release | src/redis_semaphore/lua_scripts.py:131-138 | The script's reply and the new keys |
| SemaphoreStores.SemaphoreStore.Refresh | src/redis_semaphore/lua_scripts.py:152-182 | The script's reply and the new keys |
| SemaphoreStores.SemaphoreStore.Cleanup | src/redis_semaphore/lua_scripts.py:192-200 | How many entries had run out; the others stay |
| SemaphoreStores.SemaphoreStore.Status | src/redis_semaphore/lua_scripts.py:211-235 | The occupancy and the caller's expiry |
| SemaphoreClients.Semaphore.TryAcquire | src/redis_semaphore/semaphore.py:673-698 | A grant leaves the instance in step with the server's entry; a denial keeps what it knew |
| SemaphoreClients.Semaphore.Release | src/redis_semaphore/semaphore.py:799-823 | The slot is given back, the local state reset whatever the server answers |
| SemaphoreClients.Semaphore.Refresh | src/redis_semaphore/semaphore.py:1014-1036 | The entry is extended, or the instance learns that the lock is lost |
| Lease.StepInv | src/redis_semaphore/lua_scripts.py:75-200 | Every step keeps each client's belief covered by the server's entry |
| Lease.LeaseSafety | src/redis_semaphore/heartbeat.py:146-149 | At any moment of any run at most `limit` unreleased clients believe to hold a slot, each with an unexpired entry |
| Lease.GrantIsBelieved | src/redis_semaphore/lua_scripts.py:91-119 | An acquire that finds room by the stored owners makes the client a believer until one timeout later, with the next token |
| Lease.RefreshMovesDeadline | src/redis_semaphore/heartbeat.py:146-149 | A refresh that finds its entry moves the deadline to one timeout after it began, and the reported expiry to one after it ran |
| Lease.BeliefEnds | src/redis_semaphore/heartbeat.py:143-145 | A client told of its loss, or releasing, believes no more; its release takes the entry out |
| Lease.GrantedUntil | src/redis_semaphore/lua_scripts.py:75-121 | On any keys, a granted entry lasts exactly until one timeout after the acquire ran |
| Lease.FirstDeadlineCovered | src/redis_semaphore/heartbeat.py:124 | For any keys and limit, the first deadline is covered until it runs out iff no time passed between acquire and loop |
| Lease.FencingOrdersWrites | src/redis_semaphore/lua_scripts.py:95-115 | Tokens strictly increase in any interleaving; a token-checking resource never applies a write after a later holder's |
| Lease.WriteLetThrough | src/redis_semaphore/lua_scripts.py:95-115 | In any run a write is let through iff no write with a larger token was |
| Heartbeats.Heartbeat.Loop | src/redis_semaphore/heartbeat.py:121-149 | The loop's deadline, time and loss, as specified turn by turn |
| Heartbeats.LostExactly | src/redis_semaphore/heartbeat.py:121-149 | Told by the turns alone: the loop is over iff a turn ends it, and the lock lost iff the first such turn is not-owned, fatal, or an error at or after the last confirmation - or the start - plus the lock timeout |
| Heartbeats.EndsWithTurn | src/redis_semaphore/heartbeat.py:121-149 | The first turn that ends the loop decides when it ends and whether the lock is lost; the waits before it are the interval, or the retry step cut short by the deadline |
| Heartbeats.NotOwnedIsLost | src/redis_semaphore/heartbeat.py:129-145 | The first turn that is no success loses the lock if it answers not-owned or a fatal error |
| Heartbeats.RefreshedIsOnTime | src/redis_semaphore/heartbeat.py:146-149 | A successful refresh puts the deadline one timeout after its start, and the next attempt before it |
| Heartbeats.LostWithinBounds | src/redis_semaphore/heartbeat.py:136-142 | Transient errors lose the lock never before the deadline, never more than one slow attempt after it |
| Heartbeats.GivesUpAfterRefresh | src/redis_semaphore/heartbeat.py:136-142 | They end the loop within lock_timeout / retry_step attempts plus one |
| Heartbeats.NoTimeoutNoLoss | src/redis_semaphore/heartbeat.py:136-142 | Without a lock timeout they never do |
| DispatchWorkers.DispatchWorker.AskReclaim | src/redis_semaphore/dispatch.py:774-776 | The order to scan is taken off and the scan asked for, with a snapshot of what is touched; it hides no job that waits to start again; the worker's invariant is kept |
| DispatchWorkers.DispatchWorker.Filter | src/redis_semaphore/dispatch.py:915-919 | The entries of a reply that were not taken when it was asked for |
| DispatchWorkers.DispatchWorker.Receive | src/redis_semaphore/dispatch.py:776-793 | The batch is what the reply brought and the snapshot lacks, flagged as reclaimed unless it was read: none finished here, none with a live run; without any, the backlog and then a new entry are asked for; the worker's invariant is kept |
| DispatchWorkers.DispatchWorker.LeadFail | src/redis_semaphore/dispatch.py:803-808 | After an error exactly the entries with a live run are still touched; the worker's invariant is kept |
| DispatchWorkers.DispatchWorker.Start | src/redis_semaphore/dispatch.py:1059-1069 | The new run is the only live one of its entry, which is touched, not finished here and not in the rest of the batch; the worker's invariant is kept |
| DispatchWorkers.DispatchWorker.CancelDelivered | src/redis_semaphore/dispatch.py:1089-1095 | The cancelled handler is gone and out of the lock; its entry has no other live run and is not in the batch; the worker's invariant is kept |
| DispatchWorkers.DispatchWorker.HandBack | src/redis_semaphore/dispatch.py:986-994 | The ids are no longer touched, and are the ones to be claimed, before the claim is sent |
| DispatchWorkers.DispatchWorker.HandedBack | src/redis_semaphore/dispatch.py:797-802 | After the claim the lock is free and nothing that was, or is next to be, handed back is touched; the worker's invariant is kept |
| DispatchWorkers.DispatchWorker.DelayOver | src/redis_semaphore/dispatch.py:1138-1143 | After the delay the entry has no live run and is no longer touched; the worker's invariant is kept |
| DispatchWorkers.DispatchWorker.RunReturned | src/redis_semaphore/dispatch.py:1143-1144 | Whatever waits will be found by the next scan; a job given back before admission waits; the worker's invariant is kept |
| DispatchWorkers.DispatchWorker.Finished | src/redis_semaphore/dispatch.py:1154-1168 | A finished or failed entry is not touched and has no live run; the worker's invariant is kept |
| DispatchWorkers.DispatchWorker.TouchBegin | src/redis_semaphore/dispatch.py:973-977 | A touch names all that is touched: only handled entries, none that was handed back; the worker's invariant is kept |
| DispatchSafety.ServerStep | src/redis_semaphore/dispatch.py:1039-1045 | Every command keeps each entry unread, pending, answered or rightly dropped |
| DispatchSafety.WorkerKeeps | src/redis_semaphore/dispatch.py:762-1168 | Every step of a worker keeps its invariant |
| DispatchSafety.OthersKeep | src/redis_semaphore/dispatch.py:762-1168 | So do the steps of everyone else |
| DispatchSafety.RunKeeps | src/redis_semaphore/dispatch.py:762-1168 | The invariant of server and all workers holds over whole runs |
| DispatchLaws.NoJobIsLost | src/redis_semaphore/dispatch.py:1154-1168 | In every run each entry is unread, pending, answered, or dropped as malformed or too late; an answered one is gone |
| DispatchLaws.WorkersBehave | src/redis_semaphore/dispatch.py:789-1069 | Touched ids are handled, no two live runs of an entry in one worker, one unsettled run, runs within max_admitted |
| DispatchLaws.StartsAreFresh | src/redis_semaphore/dispatch.py:868-919 | No start of an entry that has a live run, or whose finish ran for the worker, told of it or not, from any reply in flight |
| DispatchLaws.FinishIsRemembered | src/redis_semaphore/dispatch.py:868-886 | A finished entry stays finished for its worker until it crashes |
| DispatchLaws.HandBackIsReclaimable | src/redis_semaphore/dispatch.py:987-1004 | After the claim the entries can be reclaimed at once |
| DispatchLaws.TouchSparesReturned | src/redis_semaphore/dispatch.py:973-984 | No later touch resets the idle time of what was handed back |
| DispatchLaws.ReturnedUntilTaken | src/redis_semaphore/dispatch.py:789-792 | It stays handed back until the worker takes it again |
| DispatchRequeue.RequeuedRunsFirst | src/redis_semaphore/dispatch.py:771-788 | A job requeued before admission waits and starts again before its leader reads anything unread, over every run in which the leader stays, its scans cover the pending list, and no one else leads or holds the entry |
| DispatchRequeue.ScanWaits | src/redis_semaphore/dispatch.py:888-919 | The covering scan finds the job, as the claim of its hand-back made it idle |
| DispatchLaws.ScanFindsRequeued | src/redis_semaphore/dispatch.py:774-782 | A scan that covers the pending list brings a waiting job into the batch iff its entry is idle then |
| DispatchLaws.RequeuedUntilStarted | src/redis_semaphore/dispatch.py:1134-1144 | It waits until it starts or is dropped, unless the leader leaves or dies or a scan misses it |
| DispatchOrder.ActMoves | src/redis_semaphore/dispatch.py:776-793 | What may become a first run has just been read or already could; a start uses it up |
| DispatchOrder.OneFirstRun | src/redis_semaphore/dispatch.py:782-793 | Over all workers and all time each entry has at most one run with reclaimed=False |
| DispatchOrder.FirstStartsInStreamOrder | src/redis_semaphore/dispatch.py:835-846 | Under exclusive leadership first runs start in stream order over any sequence of leaders |
| DispatchOrder.SerializedAdmission | src/redis_semaphore/dispatch.py:1071-1087 | Under exclusive leadership at most one handler of the queue is unsettled |
| DispatchDelivery.FirstRunsAreReads | src/redis_semaphore/dispatch.py:770-793 | Over every run: a handler run has reclaimed=False iff its entry was unread when the request that brought it ran, which is iff that request was a read; the first starts are exactly the starts of such entries, in order |
| DispatchDelivery.StartedExactly | src/redis_semaphore/dispatch.py:1059-1069 | A start in any reachable state is a first run, and added to the first starts, iff the worker's last delivery was a read |
| DispatchLeading.ReceivedExactly | src/redis_semaphore/dispatch.py:776-793 | What a reply brought is the whole next batch; without anything new the backlog is asked for after a scan and an unread entry after the backlog |
| DispatchLeading.ScanFirst | src/redis_semaphore/dispatch.py:771-788 | A forced scan is due before any unread entry is read, and is asked for once |
| DispatchLeading.ReadThenStarted | src/redis_semaphore/dispatch.py:787-796 | A job the leader reads, well-formed and with room, starts as a first run |
| DispatchLeading.HeadOfBatch | src/redis_semaphore/dispatch.py:1029-1057 | In every reachable state the head of a batch is dropped iff malformed or past its deadline, started iff well-formed and below the cap, and given up at the cap only |
| DispatchLeading.DroppedIsGone | src/redis_semaphore/dispatch.py:1032-1046 | A dropped job leaves the pending list and the stream, and the rest of the batch is next |
| DispatchLeading.AdmitSettles | src/redis_semaphore/dispatch.py:1071-1087 | The leader goes on iff the handler it waits for admitted or is gone |
| DispatchLeading.TouchTakesLock | src/redis_semaphore/dispatch.py:973-984 | A touch holds the claim lock and names all that is touched, read under the lock |
| DispatchLeading.TouchHolds | src/redis_semaphore/dispatch.py:968-984 | A touched entry is in no reclaim reply for another idle period; no other entry changes |
| DispatchLeading.ScanTakesOver | src/redis_semaphore/dispatch.py:905-925 | A reclaim or a re-read of the backlog restarts the idle time of what it returns, for this worker, and of nothing else |
| DispatchLeading.HandledIsTouched | src/redis_semaphore/dispatch.py:789-792 | In every reachable state all of the batch and all entries with a live handler are touched |
| DispatchLeading.ReturnedIsAnswered | src/redis_semaphore/dispatch.py:1154-1168 | A handler that returns has its reply pushed and its entry acknowledged, deleted and no longer touched |
| DispatchLeading.RequeuedLetsGo | src/redis_semaphore/dispatch.py:1134-1142 | A handler that raises RequeueJob waits out its delay and then lets go of its entry |
| DispatchLeading.RequeuedIsHandedBack | src/redis_semaphore/dispatch.py:1143-1144 | A requeued job is idle once its claim ran, and the worker scans again |
| DispatchLeading.LeavingHandsBack | src/redis_semaphore/dispatch.py:986-1004 | A leader that leaves gives up an entry only to hand it back, and keeps it to be claimed until the claim was answered |
| DispatchService.UnreadIsServed | src/redis_semaphore/dispatch.py:762-802 | From any state a worker that does not lead and has room can take the lead, find the next unread job, answer it and leave, every action enabled in turn |
| DispatchService.LeavingFreesAll | src/redis_semaphore/dispatch.py:1089-1095 | From any state a leader can leave the unsettled handler it waits for; the handler is gone, and its entry and the whole batch can be reclaimed at once |
| DispatchService.QuittingFreesAll | src/redis_semaphore/dispatch.py:1047-1057 | The same for a leader that waits for a free slot |
| DispatchService.CancelsTooLate | src/redis_semaphore/dispatch.py:1089-1095 | If the handler was over before its cancellation, only the rest of the batch is handed back |
| DispatchSubmit.Stream.Submit | src/redis_semaphore/lua_scripts.py:495-515 | The script's reply and the new stream and marker |
| DispatchSubmit.SubmittedExactly | src/redis_semaphore/lua_scripts.py:495-514 | Told of stream and markers alone: a marked job gets its entry back, a full stream refuses, otherwise the job is appended with its deadline and marked for the TTL |
| DispatchSubmit.DroppedNoSooner | src/redis_semaphore/dispatch.py:1029-1045 | Over every run a job can be dropped iff it is malformed or its timeout has passed since the submit |
| DispatchSubmit.StreamStaysBounded | src/redis_semaphore/lua_scripts.py:501-504 | The stream never exceeds max_queue_size in any run |
| DispatchSubmit.ReplyNamesTheJob | src/redis_semaphore/lua_scripts.py:499-514 | The id returned is an entry of that job |
| DispatchSubmit.ResendFindsItsEntry | src/redis_semaphore/lua_scripts.py:491-500 | While the marker lives a resend returns the same id and appends nothing, even to a full queue |
| DispatchSubmit.OneEntryPerJob | src/redis_semaphore/lua_scripts.py:491-500 | A job of which nothing is in the stream, submitted for the first time or again, has at most the entry it was given in it while its marker lives |

## Left out

- Lease.LeaseSafety: is about deadlines set by successful refreshes and expiries the server reported, not about the heartbeat's first deadline, which is not conservative.
- RateLaws.WindowSafety: asks for acquires that are fresh or recorded in all charged logs, and for adjustments that do not raise costs and that, when they put a cost back inside the window, find the charge recorded no later than the time they name; `CarriedFlagExceeds` and `LoweringRaises` say when a limit is exceeded otherwise.
- RatePermits.PermitIsItsCharge: asks that the owner's adjustments name the logged cost, or come after the charge left; `SettleHolds` says that otherwise the permit and the log disagree.
- RateTimeouts.TimeoutIsFinal: the other clients must give nothing back - no adjustment of theirs lowers a cost, merges two records or moves one to an earlier time.
- RateLaws.RetryExact: "fresh" means the member is in none of the logs, as every client draws a new identifier.
- DispatchRequeue.RequeuedRunsFirst: one claim scan must cover the pending list and is answered once, and the hand-back must not fail; a forced scan that does not finish is not continued at once (`src/redis_semaphore/dispatch.py:771-786`). The rest of a batch runs before a job requeued from it.
- DispatchOrder.FirstStartsInStreamOrder: assumes no two workers lead at the same moment; the leader lease is not composed with the queue.
- RateClients.AcquireLoop: a script call and the check of the deadline happen at one instant; the time a call takes is lateness of the attempt.
- Client-clock mode (`TimeSource.CLIENT`), clock skew, and the truncation of times below a millisecond.
- Integer width: Redis counters and Lua numbers are unbounded here.
- The order of log members with equal scores; nothing proved depends on it.
- Failover and asynchronous replication, deleted streams and NOGROUP recovery, fatal errors, ACLs.
- A second cancellation during shutdown, which cancels all handlers, and stopping as an event of its own; leaving a queue is possible at any moment instead.
- Consumer pruning, which removes consumers with nothing pending.
- Entries deleted while pending: only entries still in the stream are ever pending here.
- The submitter's wait for its reply, reply lists and their TTL; an answered entry is one whose reply was pushed.
- The blocking wait of a semaphore acquire, its wake-up list and backoff; acquire retries regardless.
- Several queues of one worker: they share only the claim lock, which makes them wait for each other.
- The read timeout, election and reclaim intervals: a leader may reclaim at any time, and must when told to.
- Mixed sync and async use, metrics, logging, health views, lock-lost callbacks, process-exit cleanup.
- The asynchronous variants, which are the same algorithms.
- Script loading, reply parsing, connection handling.
