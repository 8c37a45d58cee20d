# Verified model of the reliable queue

The queue delivers every accepted task at least once. It has two engines behind one interface, one in process
memory and one on a Redis stream, and a manager that claims tasks, renews their leases, runs a Processor and
settles the outcome. A separate tool checks append-only ledgers of what such a system did. This project models
all four in Dafny and proves what they are for.

- `TaskMachine.dfy` is the queue as both engines promise it: each id is Ready, Inflight with a token and a lease,
  Delayed or Failed; there is a FIFO of ready ids and a set of tombstones. An `Event` is one atomic step with the
  choices the engines leave open: the order of promotion, which of several equally old leases goes first, when
  aged records are pruned. `Runs.dfy`, `Claims.dfy` and `Timing.dfy` hold the theorems about every run, that is about
  every interleaving of any clients' calls.
- `MemoryEngine.dfy` is the in-process engine as a class of mutable messages. Each method is one critical section
  and its contract names the steps of the task machine it takes. `Valid` ties the fields to the last state of one
  lawful run kept as ghost state, so every theorem about runs holds of it.
- `RedisStream.dfy` is the ready stream with its consumer group: all entries in id order, the last-delivered-id, the
  pending entries. `RedisStore.dfy` is the namespace around it with the commands the scripts use, reads included. A
  command requires what Redis requires for it not to raise an error, so a script that verifies cannot fail half way
  through its writes. `Coherent` is the agreement of records, index sets, stream and pending entries.
  `RedisCoherence.dfy`, `RedisSteps.dfy` and `RedisReceive.dfy` show what each script's writes do to a coherent
  namespace. `RedisScripts.dfy` holds the eight scripts; each has one contract for every namespace, however corrupt
  its records, and one for coherent namespaces. `RedisWitnesses.dfy` holds concrete namespaces on which a script
  reports corruption. `RedisEngine.dfy` is the client: any number of clients share one server and extend one run.
- `Decimal.dfy` decides when decimal text is a counter that can be incremented. `Ranking.dfy` is the order by
  score and id that the sorted sets and `ListFailed` use.
- `Backoff.dfy`, `RenewLoop.dfy`, `Settlement.dfy` and `Lifecycle.dfy` are the manager: its retry delay, its lease
  clock, its decision after processing, and Start, Stop and the workers under every interleaving. The manager object
  carries the trace of every section executed so far, so the theorems about traces hold of it.
- `Records.dfy` and `Ledger.dfy` are the passes of the ledger validator, `LedgerReport.dfy` is the whole of it: for each
  code when it is reported and for each counter what it counts, told from the records. `LedgerMeaning.dfy` is what a
  report means. `Payload.dfy` is the payload codec the ledger relies on.

Time is an integer that never decreases from one step of a run to the next, and it is the same for all clients
of a server. A token handed to Receive has never been used before. A digest stands for its content. All of these
are preconditions or types in the model, not proved facts about the clock, the random source or SHA-256.

Where the code and its documentation differ the model follows the code:

- `retryDelay` is documented as `RetryDelay * RetryFactor^retries`, at most `MaxRetryDelay`. With a factor below 1
  and a first delay at or above the maximum the code answers the maximum for ever. `Backoff.DocumentedIff` says that
  a configuration meets the formula for every number of retries if and only if it is not one of these, and
  `Backoff.MissesFrom` that one of these meets it up to some number of retries and never after.
- A namespace no one has tampered with can still answer `ErrCorruptRecord`: when a counter has reached the largest
  int64. The contracts of Receive, Retry and Replay say exactly when, and `RedisWitnesses` has a coherent namespace
  for each.
- A receive that answers an error is documented to leave the record at fault as it was. It does if and only if no
  record is both due for promotion and the first live lease (`RedisReceive.Clash`). A coherent namespace has no such
  record, but two changes from outside make one: `RedisWitnesses.ClashArises`.
- A task that fails is documented to be retained. The script prunes in the same call, so the task it has just retained
  survives if and only if its id was not among the earliest aged entries of the failed index before; on a coherent
  namespace it never is, after one deletion from outside it can be: `RedisWitnesses.FailureIsLost`.
- An empty answer of Receive means that nothing can be claimed, on a coherent namespace. Otherwise
  `RedisReceive.FoundEmpty` says exactly when it comes, and `RedisWitnesses.EmptyThoughReady` is a namespace where it
  hides a ready task behind twenty entries without a record.
- The ledger's verdict depends on the order of records when an id was submitted with different lengths and called
  with one of them: the last submit decides. `LedgerMeaning.OrderIrrelevantIff` says this is the only case.
- The local lease clock is documented never to outlive the lease at the server. The scripts see whole milliseconds
  of time and of the lease, the manager nanoseconds. On Redis a lease granted at a given instant is held as long as
  the loop trusts it if and only if that instant and the lease are whole milliseconds; otherwise
  `Settlement.EarlyTakeover` is a run in which someone else is handed the task while the loop still trusts the lease.
  `Settlement.HeldAtGrantIff` and `Settlement.HeldOnRedisIff` give the exact margins.
- `UniqueSubmitted` counts ids that have only a final observation as well: `LedgerMeaning.FinalCountsAsSubmitted`.
  `LedgerMeaning.UniqueSubmittedIff` says when it is the number of submitted ids.

A Processor may run on after its lease has ended at the engine: the bound of `RenewLoop.GivesUpInTime` is five
thirds of a lease after the last successful renewal was sent. `Settlement.TrustedLeaseIsHeld` says how long the
lease is certainly still held, and `Runs.Fencing` why what happens later does no harm to the queue.

## Model

| member | source | states |
|---|---|---|
| TaskMachine.NextKeepsInv | pkg/queue/engine/reliable.go:51-78 | every step keeps the ready order equal to the ready ids, tokens issued and distinct between tasks, retries within deliveries |
| TaskMachine.ReceiveEffect | pkg/queue/engine/reliable.go:55-62 | what a Receive does to any one task: claimed if its lease ran out or it was ready, made ready if it was due and promoted, otherwise unchanged |
| Runs.InvAlong | pkg/queue/engine/reliable.go:47-58 | the invariant holds in every state of every run |
| Runs.Fencing | pkg/queue/engine/reliable.go:11-17 | a token that lost its task by takeover, Ack, Retry or Fail is refused ever after, through replay and re-enqueue of the id, and its use changes nothing |
| Runs.Conservation | pkg/queue/engine/reliable.go:47-50 | an accepted task stays with unchanged content in every later state unless acknowledged with its current token or pruned |
| Runs.StepConserves | pkg/queue/engine/memory_engine.go:183-198 | a step removes a task if and only if it acknowledges it with the current token or prunes it; a pruned task was failed for the retention |
| Runs.PrunedWasFailed | pkg/queue/engine/memory_engine.go:76-82 | a pruned task was failed with its current token at least FailedRetention earlier and stayed failed, with the reason of that Fail |
| Runs.Deduplication | pkg/queue/manager.go:207-210 | from acceptance until the window after its Ack, a stable id is never accepted as new, whatever other enqueues interleave |
| Runs.DeduplicationAnswer | pkg/queue/engine/reliable.go:58-61 | whatever interleaves, a later stable-id enqueue is answered duplicate for the bytes of the task accepted last if it is still there, and otherwise for those of the first; conflict for any others |
| Runs.StableIdAnswer | pkg/queue/manager.go:207-210 | so while only stable-id enqueues of the id take place, every answer compares with the accepted bytes |
| Runs.NewAgainAfterWindow | pkg/queue/manager.go:207-210 | once the window has passed the id is accepted whatever the content |
| Claims.EmptyIffNothingClaimable | pkg/queue/engine/reliable.go:55-57 | Receive reports empty if and only if nothing is ready, no lease has ended by now and no retry is due by now |
| Claims.ClaimOrder | pkg/queue/engine/memory_engine.go:145-162 | expired leases go first, earliest first, then the oldest ready id, promoted ones after those already waiting |
| Claims.NeverPassedOver | pkg/queue/engine/reliable.go:47-57 | a task that can be claimed is delivered before any Receive reports the queue empty, unless its former holder settles or renews it |
| Claims.FirstComeFirstServed | pkg/queue/engine/memory_engine.go:155-162 | a waiting task is handed out before any that becomes ready after it, be that one new, promoted or replayed; only takeovers of expired leases go before |
| Claims.LeaseExclusion | pkg/queue/manager.go:290-296 | while less than LeaseDuration has passed since the granted request was sent and the holder has not settled, the lease is in the future and no Receive returns the task |
| Claims.DeliveryStaysAccurate | pkg/queue/engine/memory_engine.go:165-180 | while its token is current a delivery still describes the record: content, retries, attempts |
| Claims.RetryBudget | pkg/queue/manager.go:419-425 | if every Retry has budget when decided, no task is retried more often than MaxRetries nor than it was delivered |
| Claims.ExhaustedMeansMaxRetries | pkg/queue/manager.go:426-428 | a current delivery without budget belongs to a task retried exactly MaxRetries times |
| Claims.CountersCount | pkg/queue/engine/memory_engine.go:213-227 | retries counts the Retry steps since acceptance or the last replay, deliveries the deliveries since acceptance |
| Timing.LeaseEnds | pkg/queue/engine/memory_engine.go:165-210 | a current claim ends exactly LeaseDuration after the claim or renewal that granted it last |
| Timing.LeaseIsRecovered | pkg/queue/engine/memory_engine.go:145-154 | from that instant on a Receive that succeeds takes over this task or one whose lease ended no later |
| Timing.RetryWaitsOut | pkg/queue/engine/reliable.go:66-68 | until its delay has passed a retried task stays as the Retry left it, with its reason and one more retry, and no Receive delivers it |
| Timing.RowTells | pkg/queue/engine/memory_engine.go:230-270 | each row of the failed list carries the instant and the reason of the Fail that put it there |
| Ranking.RankedLists | pkg/queue/engine/redis_stream.go:302-305 | the ranking of a score set lists each member once, ascending by score and then id |
| Ranking.RankedUnique | pkg/queue/engine/memory_engine.go:255-261 | it is the only list that does |
| Ranking.TakeIsLeast | pkg/queue/engine/memory_engine.go:262-264 | cutting the ranking leaves the least members, limit of them or all there are |
| Ranking.IdLessIs | pkg/queue/engine/memory_engine.go:255-261 | the order of ids is that of their first difference, a prefix coming first |
| TaskMachine.EarliestAreFirst | pkg/queue/engine/redis_stream.go:302-305 | the list of the earliest failures holds as many as there are, limit at most, ascending, each as stored, and every other failure comes later |
| Ranking.RangeLists | pkg/queue/engine/redis_stream.go:109-109 | a bounded range by score returns members in range, each once, ascending, limit of them or all there are, and a member in range that it leaves out comes after every one it returns |
| MemoryEngine.MemoryEngine.constructor | pkg/queue/engine/memory_engine.go:54-67 | a new engine is empty and its run starts there |
| MemoryEngine.MemoryEngine.PruneLocked | pkg/queue/engine/memory_engine.go:70-83 | exactly the expired tombstones and the aged failed messages go |
| MemoryEngine.MemoryEngine.ForgetExpired | pkg/queue/engine/memory_engine.go:71-75 | the scan over the map drops exactly the expired tombstones |
| MemoryEngine.MemoryEngine.DropAged | pkg/queue/engine/memory_engine.go:76-82 | the scan over the map drops exactly the aged failed messages |
| MemoryEngine.PrunedIsSwept | pkg/queue/engine/memory_engine.go:70-83 | after a prune no failed task is as old as the retention and no tombstone is past its window, and every other task is still there |
| MemoryEngine.MemoryEngine.Enqueue | pkg/queue/engine/memory_engine.go:86-124 | each refusal in its order; otherwise a prune that leaves nothing aged and then the Enqueue step of the task machine; a new id is refused as full if and only if there is a capacity and exactly that many tasks are left after the prune, and the queue never holds more than its capacity |
| MemoryEngine.MemoryEngine.PromoteDue | pkg/queue/engine/memory_engine.go:139-144 | in whatever map order, exactly the due retries become ready, each once, after those already waiting |
| MemoryEngine.MemoryEngine.FindExpired | pkg/queue/engine/memory_engine.go:146-151 | finds a lease that expired first, or none if none has expired |
| MemoryEngine.MemoryEngine.ClaimLocked | pkg/queue/engine/memory_engine.go:165-171 | the Claim of the task machine and the delivery that describes it |
| MemoryEngine.MemoryEngine.PopReady | pkg/queue/engine/memory_engine.go:155-161 | passes over ids that are not ready and takes the first that is |
| MemoryEngine.MemoryEngine.FrontIsReady | pkg/queue/engine/memory_engine.go:158-160 | under the invariant the front of the queue is always ready, so the test never skips an id |
| MemoryEngine.MemoryEngine.Receive | pkg/queue/engine/memory_engine.go:127-163 | a prune that leaves nothing aged and then a Receive step that promotes every due retry; the reply is the one the step calls for |
| MemoryEngine.MemoryEngine.Holder | pkg/queue/engine/memory_engine.go:174-180 | finds the message if and only if the token is current |
| MemoryEngine.MemoryEngine.Ack | pkg/queue/engine/memory_engine.go:183-198 | the Ack step and its reply |
| MemoryEngine.MemoryEngine.Renew | pkg/queue/engine/memory_engine.go:201-210 | the Renew step and its reply |
| MemoryEngine.MemoryEngine.Retry | pkg/queue/engine/memory_engine.go:213-227 | the Retry step with a negative delay taken as zero, and its reply |
| MemoryEngine.MemoryEngine.Fail | pkg/queue/engine/memory_engine.go:230-240 | the Fail step and its reply |
| MemoryEngine.MemoryEngine.ListFailed | pkg/queue/engine/memory_engine.go:243-270 | as many rows as there are failed tasks, limit at most, ascending by instant and id, each with what is stored; every failed task not listed comes after all that are, whatever the map order; limits outside 1 to 1000 are refused |
| MemoryEngine.InsertionSort | pkg/queue/engine/memory_engine.go:256-261 | sorts the array in place by instant and id and keeps its elements |
| MemoryEngine.MemoryEngine.ReplayFailed | pkg/queue/engine/memory_engine.go:273-286 | the Replay step and its reply |
| MemoryEngine.MemoryEngine.Close | pkg/queue/engine/memory_engine.go:289-294 | marks the engine closed and changes nothing else |
| Decimal.IsIntExact | pkg/queue/engine/redis_stream.go:58-69 | isint accepts exactly the canonical decimals of 0 to the limit |
| Decimal.ByteOrderIsNumeric | pkg/queue/engine/redis_stream.go:66-68 | comparing digit strings of equal length as text compares their numbers |
| Decimal.IncrementIsCount | pkg/queue/engine/redis_stream.go:70-71 | a counter that passes isinc stays a canonical int64 when incremented |
| RedisStore.CheckedIncrement | pkg/queue/engine/redis_stream.go:72-85 | a checked counter satisfies the condition under which HINCRBY does not fail, and the increment adds one |
| RedisStore.IncFailsOnlyAtMax | pkg/queue/engine/redis_stream.go:70-71 | a counter is refused for increment only at the largest int64 |
| RedisStore.CheckIff | pkg/queue/engine/redis_stream.go:72-85 | a record passes its check if and only if it is in the state asked for, has a payload, and its counters are written as whole numbers that leave room for the increments |
| RedisSteps.PromotedStep | pkg/queue/engine/redis_stream.go:126-130 | moving one due retry keeps coherence and makes the task ready at the end |
| RedisSteps.ReclaimedStep | pkg/queue/engine/redis_stream.go:150-157 | taking over a lease keeps coherence and is the Claim of the task machine |
| RedisSteps.TakenStep | pkg/queue/engine/redis_stream.go:184-191 | claiming the stream head keeps coherence and is the Claim of the oldest ready task |
| RedisSteps.AckedStep | pkg/queue/engine/redis_stream.go:231-238 | the writes of ack keep coherence and are the Ack step |
| RedisSteps.RetriedStep | pkg/queue/engine/redis_stream.go:265-271 | the writes of retry keep coherence and are the Retry step |
| RedisSteps.RetainedStep | pkg/queue/engine/redis_stream.go:289-293 | the first writes of fail keep coherence and are the Fail step |
| RedisSteps.RenewedStep | pkg/queue/engine/redis_stream.go:250-251 | the write of renew keeps coherence and is the Renew step |
| RedisSteps.ReplayedStep | pkg/queue/engine/redis_stream.go:329-333 | the writes of replay keep coherence and are the Replay step |
| RedisSteps.DropAllStep | pkg/queue/engine/redis_stream.go:294-297 | deleting aged failed records keeps coherence and removes exactly those tasks |
| RedisSteps.StaleIsStep | pkg/queue/engine/redis_stream.go:229-230 | with any token but the current one, doing nothing is the step, with the reply the scripts give |
| RedisSteps.FailedIndexIsScores | pkg/queue/engine/redis_stream.go:304-304 | the failed index is the map of failure instants of the task machine |
| RedisCoherence.EnqueuedCoherent | pkg/queue/engine/redis_stream.go:216-217 | the writes of enqueue keep coherence and add one ready task at the end |
| RedisReceive.PromoteAllStep | pkg/queue/engine/redis_stream.go:126-130 | moving a whole batch of due retries is the promotion of the task machine |
| RedisReceive.BatchPromotesDue | pkg/queue/engine/redis_stream.go:108-134 | a batch holds the retries that became due first, each once, 100 of them or all there are; every due retry it leaves out became due after those it holds |
| RedisReceive.FirstLiveIs | pkg/queue/engine/redis_stream.go:136-157 | the record step 2 takes up is the one whose lease has run out, with fewer than the tries allowed before it in the order of lease end and no record among those |
| RedisReceive.FoundEmptyIs | pkg/queue/engine/redis_stream.go:102-194 | on any namespace the queue is found empty if and only if nothing is corrupt among the retries due, no record is taken up, the first 20 waiting entries lack their record, and with fewer than 20 none of the retries due has one |
| RedisReceive.LateUntouched | pkg/queue/engine/redis_stream.go:96-101 | when receive fails in step 2 or 3, the record at fault, its index entries and its stream entries are as they were if and only if step 1 has not promoted it |
| RedisReceive.CoherentNeverClashes | pkg/queue/engine/redis_stream.go:96-101 | on a coherent namespace no record is both due for promotion and a live lease |
| RedisWitnesses.ClashArises | pkg/queue/engine/redis_stream.go:108-147 | a coherent namespace that two changes from outside turn into one where receive promotes the record it then calls corrupt |
| RedisWitnesses.ReceiveRefusesCoherent | pkg/queue/engine/redis_stream.go:72-85 | a coherent namespace where the counter limit stands in the way of receive, which is exactly when ReceiveScript answers CORRUPT |
| RedisWitnesses.RetryRefusesCoherent | pkg/queue/engine/redis_stream.go:262-263 | a coherent namespace with a current claim whose retry counter is at its limit, which is exactly when RetryScript answers CORRUPT |
| RedisWitnesses.ReplayRefusesCoherent | pkg/queue/engine/redis_stream.go:325-328 | a coherent namespace with a failed task whose replay counter is at its limit, which is exactly when ReplayScript answers CORRUPT |
| RedisWitnesses.FailureIsLost | pkg/queue/engine/redis_stream.go:283-297 | a coherent namespace that one deletion from outside turns into one where fail prunes the very task it has just retained |
| RedisWitnesses.EmptyThoughReady | pkg/queue/engine/redis_stream.go:161-194 | a namespace where receive finds the queue empty although a task is ready |
| RedisSteps.DropAllIs | pkg/queue/engine/redis_stream.go:294-297 | on any namespace the prune deletes exactly the listed records that say failed, and removes exactly the listed ids from the index |
| RedisSteps.ClaimLeaves | pkg/queue/engine/redis_stream.go:150-191 | a takeover changes token and attempt counter only, a claim of the head also state and entry; the counter goes up by one and the lease is set |
| RedisSteps.RetryLeaves | pkg/queue/engine/redis_stream.go:265-271 | a retry sets state, reason, instant and retry counter, clears token and entry and drops the lease |
| RedisSteps.FailLeaves | pkg/queue/engine/redis_stream.go:289-293 | a failure sets state, reason and instant, clears token and entry and drops the lease |
| RedisSteps.ReplayLeaves | pkg/queue/engine/redis_stream.go:329-333 | a replay makes the record ready with no retries and one more replay, and takes it off the failed index |
| RedisScripts.RedisServer.ReceiveScript | pkg/queue/engine/redis_stream.go:102-194 | on any namespace an error claims nothing and leaves the record at fault untouched unless it clashes, a delivered record has passed its check, and no other record changes but promoted ones that passed theirs; the answer is empty if and only if no live lease is found and every entry it looks at lacks its record; on a coherent namespace it is a Receive step that answers CORRUPT if and only if the counter limit stands in the way |
| RedisScripts.RedisServer.MoveDue | pkg/queue/engine/redis_stream.go:108-134 | validates all due retries before it moves any; an error leaves the namespace as it was |
| RedisScripts.RedisServer.Recover | pkg/queue/engine/redis_stream.go:136-158 | takes over the first live lease if its record passes the check, or leaves everything but dangling index entries alone |
| RedisScripts.RedisServer.ClaimHead | pkg/queue/engine/redis_stream.go:160-193 | claims the head it has checked, found by its id after the last-delivered-id; an error claims nothing |
| RedisStream.RangeIsNext | pkg/queue/engine/redis_stream.go:171-187 | the entry XRANGE finds after the last-delivered-id is the one XREADGROUP delivers, so the answer that the head has changed cannot come |
| RedisStream.NextIsHead | pkg/queue/engine/redis_stream.go:186-187 | that entry is the first undelivered one |
| RedisStream.SplitOrdered | pkg/queue/engine/redis_stream.go:25-33 | the last-delivered-id splits the stream: delivered entries up to it, undelivered ones beyond it in id order |
| RedisStream.ReadSplit | pkg/queue/engine/redis_stream.go:186-186 | reading moves exactly the first undelivered entry to the delivered ones |
| RedisStream.DeleteSplit | pkg/queue/engine/redis_stream.go:86-91 | deleting an entry takes it out of its part of the stream and nothing else |
| RedisScripts.RedisServer.EnqueueScript | pkg/queue/engine/redis_stream.go:199-219 | any answer but ok leaves the namespace unchanged; on a coherent one it is the Enqueue step |
| RedisScripts.RedisServer.AckScript | pkg/queue/engine/redis_stream.go:223-239 | any answer but done leaves the namespace unchanged, done comes only for the current claim and with exactly the writes of ack; on a coherent namespace it is the Ack step |
| RedisScripts.RedisServer.RenewScript | pkg/queue/engine/redis_stream.go:242-252 | any answer but done leaves the namespace unchanged, done comes only for the current claim; on a coherent namespace it is the Renew step |
| RedisScripts.RedisServer.RetryScript | pkg/queue/engine/redis_stream.go:255-272 | any answer but done leaves the namespace unchanged, done comes only for the current claim of a record that passed its check, and nothing but that record and its entries changes; on a coherent namespace it is the Retry step, refused if and only if the claim is current and its retry counter at the limit |
| RedisScripts.RedisServer.FailScript | pkg/queue/engine/redis_stream.go:275-299 | any answer but done leaves the namespace unchanged; done comes only for the current claim, and the reads of the prune that follows cannot fail because every record to prune was checked before the first write; the task just retained survives that prune if and only if its id was not among the earliest aged entries of the failed index; on a coherent namespace it is the Fail step followed by a prune of the earliest aged failures |
| RedisScripts.RedisServer.ListFailedScript | pkg/queue/engine/redis_stream.go:302-314 | the rows of the first ids in the index whose record says failed; on a coherent namespace the earliest failed tasks by instant and id, at most limit, and every other comes after them |
| RedisScripts.RedisServer.ReplayScript | pkg/queue/engine/redis_stream.go:318-334 | any answer but done leaves the namespace unchanged, done comes only for a failed record that passed its check, and nothing but that record and its entries changes; on a coherent namespace it is the Replay step, refused if and only if the replay counter is at its limit |
| RedisEngine.RedisStreamEngine.Enqueue | pkg/queue/engine/redis_stream.go:427-452 | extends the run of the server by the Enqueue step it answers, after the checks of id and data |
| RedisEngine.RedisStreamEngine.Receive | pkg/queue/engine/redis_stream.go:455-476 | extends the run by a Receive step that promotes the retries due first and reports its delivery; an error if and only if the counter limit stands in the way of the task it would deliver or promote |
| RedisEngine.RedisStreamEngine.Ack | pkg/queue/engine/redis_stream.go:479-489 | extends the run by the Ack step it answers |
| RedisEngine.RedisStreamEngine.Renew | pkg/queue/engine/redis_stream.go:492-502 | extends the run by the Renew step it answers |
| RedisEngine.RedisStreamEngine.Retry | pkg/queue/engine/redis_stream.go:505-518 | extends the run by the Retry step it answers, with a negative delay taken as zero, except for a current claim whose retry counter is at the limit |
| RedisEngine.RedisStreamEngine.Fail | pkg/queue/engine/redis_stream.go:521-531 | extends the run by the Fail step it answers and, when done, by the prune of the at most 100 tasks that failed earliest and are older than the retention |
| RedisEngine.OldestAre | pkg/queue/engine/redis_stream.go:279-297 | the prune after a Fail takes as many tasks of the retention or older as there are, 100 at most, and an aged task it leaves failed after all it takes |
| RedisEngine.RedisStreamEngine.ListFailed | pkg/queue/engine/redis_stream.go:534-559 | the earliest failed tasks by instant and id, at most limit, every other coming after them, or a refusal of the limit |
| RedisEngine.RedisStreamEngine.ReplayFailed | pkg/queue/engine/redis_stream.go:562-574 | extends the run by the Replay step it answers, except for a failed task whose replay counter is at the limit |
| RedisEngine.Accounted | pkg/queue/engine/redis_stream.go:25-33 | no task is orphaned: undelivered entries, leased pending entries, delayed and failed ids partition the records, and their counts add up |
| Backoff.RetryDelay | pkg/queue/manager.go:442-452 | the loop with its early exit computes the capped delay, or the cap if the first delay is not below it |
| Backoff.DocumentedIff | pkg/queue/manager.go:441-452 | a configuration meets the documented formula for every number of retries if and only if the factor is at least 1 or the first delay is below the cap |
| Backoff.MissesFrom | pkg/queue/manager.go:441-452 | any other configuration meets it up to some number of retries and never after |
| Backoff.ShrinkingFactorIsIgnored | pkg/queue/manager.go:441-452 | a configuration for which the formula is missed |
| Backoff.Bounded | pkg/queue/manager.go:442-452 | the delay is positive, at most the cap, and grows with the retries when the factor is at least 1 |
| RenewLoop.Run | pkg/queue/manager.go:349-383 | the Processor is cancelled at the first request that is refused, however fresh the lease, or that fails when a full lease has passed since the claim and every success were sent; for nothing else |
| RenewLoop.GivesUpInTime | pkg/queue/manager.go:373-381 | when renewals stop succeeding the Processor is cancelled within five intervals of the last success or the start of the loop |
| RenewLoop.BoundAttained | pkg/queue/manager.go:373-381 | there is a session that takes exactly five intervals |
| RenewLoop.NeverTooEarly | pkg/queue/manager.go:347-348 | a lease is never presumed over before LeaseDuration has passed since the last success was sent |
| Settlement.Settle | pkg/queue/manager.go:386-432 | which of Ack, Retry, Fail or nothing follows each outcome and exactly when, with the delay of a Retry and the reason recorded for each kind of failure |
| Settlement.WorkersAreDisciplined | pkg/queue/manager.go:419-425 | workers only retry deliveries that have budget |
| Settlement.ManagerKeepsBudget | pkg/queue/manager.go:419-425 | in every run of workers sharing MaxRetries no task is retried more often |
| Settlement.RetryWaits | pkg/queue/manager.go:420-421 | a Retry that takes effect makes the task due after the computed delay for its stored retries, at most the cap |
| Settlement.ExhaustedAtLimit | pkg/queue/manager.go:412-432 | a current delivery failed after a transient error has used up its retries exactly, and is recorded as exhausted with the error; a permanent error keeps its own reason |
| Settlement.TrustedLeaseIsHeld | pkg/queue/manager.go:290-296 | as long as the renew loop trusts the lease after a failed request, the engine keeps it and delivers the task to nobody else |
| Settlement.NeverEarlyIff | pkg/queue/engine/redis_stream.go:50-53 | in whole milliseconds a lease never ends early if and only if the lease and the instant of its grant are whole milliseconds |
| Settlement.MarginIff | pkg/queue/engine/redis_stream.go:455-458 | the least margin that covers every grant is the lease's fraction of a millisecond plus a millisecond less a nanosecond |
| Settlement.EarlyTakeover | pkg/queue/engine/redis_stream.go:136-157 | for every lease and grant a lawful run and session in which a Receive hands the task to someone else, by what truncation cuts off before the lease ends, while the loop trusts it to the last nanosecond |
| Settlement.TrustedLeaseIsHeldOnRedis | pkg/queue/engine/redis_stream.go:455-458 | on Redis the lease the renew loop trusts is held, and the task delivered to nobody else, up to what truncation cuts off before the end of the failed request |
| Settlement.HeldAtGrantIff | pkg/queue/manager.go:290-296 | over all runs and sessions a lease granted at an instant is held up to a margin if and only if the margin is at least what truncation cuts off of grant and lease |
| Settlement.HeldOnRedisIff | pkg/queue/manager.go:290-296 | the same for a configured lease whenever it is granted; no configuration holds without a margin |
| Lifecycle.StepKeepsInv | pkg/queue/manager.go:111-195 | every section keeps status, stop progress, contexts, wait group, engine and in-flight count consistent |
| Lifecycle.Manager.Start | pkg/queue/manager.go:111-131 | succeeds if and only if no Start succeeded before; afterwards the error tells whether the manager has stopped |
| Lifecycle.Manager.StopBegin | pkg/queue/manager.go:137-144 | accepted if and only if a Start was accepted before and no Stop |
| Lifecycle.Manager.WaitForWorkers | pkg/queue/manager.go:149-153 | wg.Wait returns only when every worker has exited and no task is in flight |
| Lifecycle.Manager.CancelProcessors | pkg/queue/manager.go:166-177 | cancels the Processors; while a worker still runs, only after the drain has timed out |
| Lifecycle.Manager.StopEnd | pkg/queue/manager.go:182-195 | Processors are cancelled when Stop returns; the engine is closed if and only if the workers were seen to be gone, Stop fails if and only if the drain timed out or closing failed, and a closed engine or a nil means no worker and no task is left |
| Lifecycle.Manager.TestLoop | pkg/queue/manager.go:273-278 | a worker goes on if and only if no Stop has cancelled the claims at any time before, and leaves the wait group otherwise |
| Lifecycle.Manager.AfterReceive | pkg/queue/manager.go:293-304 | the in-flight counter is the number of tasks taken and not finished, and a task taken after claims were cancelled is the only one that worker took since |
| Lifecycle.Manager.AdmitAdd | pkg/queue/manager.go:218-221 | admits if and only if a Start was accepted at some time before and no Stop |
| Lifecycle.StatusMovesForward | pkg/queue/manager.go:109-195 | the status only moves from Stopped through Running and Stopping to Stopped, one at a time |
| Lifecycle.StartOnce | pkg/queue/manager.go:109-120 | at most one Start and one Stop are accepted in any interleaving |
| Lifecycle.OneMoreTask | pkg/queue/manager.go:273-305 | after claims are cancelled each worker takes on at most one more task |
| Lifecycle.ClosedAfterWorkers | pkg/queue/manager.go:182-188 | the engine is closed only after every worker has exited, and no worker acts afterwards |
| Lifecycle.StopNil | pkg/queue/manager.go:133-136 | when Stop has returned nil the workers are gone, nothing is in flight and the engine is closed |
| Lifecycle.InterruptedMeansTimeout | pkg/queue/manager.go:166-176 | while a worker still runs, Processors are cancelled only if the drain timed out |
| Lifecycle.ProcessorsCancelledIff | pkg/queue/manager.go:166-177 | Processors are cancelled at an instant if and only if Stop has reached its grace period or its end, and from then on |
| Lifecycle.FailingStays | pkg/queue/manager.go:155-192 | a Stop that timed out returns an error |
| Lifecycle.AddsBetween | pkg/queue/manager.go:218-221 | in every interleaving data is admitted if and only if a Start was accepted before and no Stop |
| Lifecycle.RunningIff | pkg/queue/manager.go:109-144 | the manager is running if and only if a Start was accepted and no Stop |
| Lifecycle.InflightCounts | pkg/queue/manager.go:316-318 | the in-flight counter is the number of tasks taken and not finished, which is the number of busy workers |
| Records.SelectPermuted | scripts/readiness/ledger/validate.go:137-233 | permuting the records permutes what any filter selects |
| Ledger.Collect | scripts/readiness/ledger/validate.go:137-187 | the first pass gathers what submits and finals say of each id and reports each malformed record, failed check and sha conflict |
| Ledger.CheckSetup | scripts/readiness/ledger/validate.go:189-205 | a ledger without submits or without a required check is reported |
| Ledger.Attach | scripts/readiness/ledger/validate.go:207-233 | the second pass attaches each start and end to its id and reports unknown ids, bad payloads and calls that end twice |
| Ledger.CheckExpectedIds | scripts/readiness/ledger/validate.go:240-245 | an id with an expected call count that was never submitted is reported |
| Ledger.Judge | scripts/readiness/ledger/validate.go:247-334 | the verdicts on one id and its share of the counters, from what the tables hold for it |
| LedgerReport.Validate | scripts/readiness/ledger/validate.go:110-337 | a violation is reported if and only if the records and the expectations call for its code, and each counter counts what it is for |
| LedgerReport.ReportedIff | scripts/readiness/ledger/validate.go:137-334 | for each code on its own, what among the records makes the validator report it: bad records, conflicts, unknown ids, payloads, unfinished and unmatched calls, counts, forbidden or missing processing, final states |
| LedgerReport.TotalsCount | scripts/readiness/ledger/validate.go:56-73 | each counter is the size of the set of ids, calls or repeats it stands for |
| LedgerMeaning.PassesIffClean | scripts/readiness/ledger/validate.go:106-337 | a ledger has no breach if and only if it is clean, a condition on the records alone |
| LedgerMeaning.OrderIrrelevantIff | scripts/readiness/ledger/validate.go:149-151 | every order of the records gives the same verdict if and only if no id was submitted with different lengths and called with one of them |
| LedgerMeaning.TotalsOrderFree | scripts/readiness/ledger/validate.go:247-334 | the counters never depend on the order of the records |
| LedgerMeaning.OrderMatters | scripts/readiness/ledger/validate.go:149-150 | a ledger of three records whose verdict depends on their order |
| LedgerMeaning.CountersAddUp | scripts/readiness/ledger/validate.go:56-73 | in every report Duplicates is ProcCalls minus UniqueExecuted, ScriptedRepeats is at most Duplicates, no more ids are confirmed than accepted, and UniqueSubmitted counts each id with a good submit or a good final observation once |
| LedgerMeaning.UniqueSubmittedIff | scripts/readiness/ledger/validate.go:247-249 | UniqueSubmitted is the number of submitted ids if and only if every id with a good final observation has a good submit |
| LedgerMeaning.FinalCountsAsSubmitted | scripts/readiness/ledger/validate.go:247-249 | a ledger without a submit that reports one unique submitted id |
| LedgerMeaning.CleanPartition | scripts/readiness/ledger/validate.go:247-257 | a clean report splits the submitted ids into accepted, rejected and uncertain ones and counts every start |
| Payload.MakePayload | scripts/readiness/ledger/payload.go:19-32 | the growing buffer holds the header followed by filler cut to size, of which each 32-byte block is the hash of the one before and the first that of the id; nothing if the header does not fit |
| Payload.VerifyExact | scripts/readiness/ledger/payload.go:48-58 | VerifyPayload accepts data for an id if and only if data is the header of that id and its own length followed by the chain of hashes of the id, the id has no pipe and the header is at most 300 bytes |
| Payload.RoundTrip | scripts/readiness/ledger/payload.go:15-58 | a payload that was made is accepted for its id if and only if the id has no pipe and the header fits the window |
| Payload.PayloadsDiffer | scripts/readiness/ledger/payload.go:15-32 | two ids without a pipe never share a payload |
| Payload.PipeCutsId | scripts/readiness/ledger/payload.go:35-45 | an id with a pipe is read back cut short |

## Left out

- go-redis calls, reply decoding, script loading, network timeouts and the topology check: I/O. A lost reply is a step whose result nobody sees.
- RedisEngine.RedisStreamEngine.Receive: each execution of the script has a token of its own, while a client that resends a script after a network error (pkg/redisx/redis.go:135) presents the token of the first execution again.
- All clients of one server share one set of options: clients of one queue name configured with different leases or windows are not modelled.
- Stream ids are consecutive numbers; Redis promises only that they increase, also after deletions.
- XCLAIM of an entry that has left the stream drops it from the pending list, as Redis 7 and later do.
- A tombstone set with PX is gone at the very millisecond its window ends.
- Fields the scripts do not validate (`e`, `h`, `c`) are taken as the scripts wrote them, and index sets as the scripts left them, as the code itself declares; the creation time `c` is not modelled.
- RedisReceive.LuaNumber: an attempt counter above 2^53 reaches the client through a Lua double, so the reported attempt is left open there.
- RedisScripts.RedisServer.ListFailedScript: a counter field that is not a canonical number is listed as 0 attempts, while the client would still read a sign or leading zeros.
- SHA-256 is an injective constructor in the queue and any function to 32 bytes in the payload; the random source and the id pattern matcher are not modelled beyond what they return.
- Backoff.RetryDelay: floating-point rounding is not modelled, delays are real numbers and durations have one unit throughout.
- RenewLoop.Run: the ticker is ideal and each request ends before the next tick, as its timeout makes it; a Processor that returns ends the session.
- Settlement.Settle: the cut of long reasons and the log output are left out, and errors are given by their kind.
- LedgerReport.Validate: the detail text of violations is left out, and so are their order and how often each is reported.
- Ledger input from JSON lines, sorting by time, the text summary of a report.
- GetStats, deprecated configuration fields and the deprecated engines, the database layer, the cache wrappers, the container and soak-test tooling: no hard property of the queue depends on them.
