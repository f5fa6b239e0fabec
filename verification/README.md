# Verified model of go-garage's hand-written protocols

Most of go-garage connects client libraries to an application. Underneath are a few small
protocols written by hand: a bulk write queue, two distributed mutexes, a RabbitMQ consumer,
connection and publisher, a Redis cache, the start and shutdown of entities, and three text
forms. This project models them in Dafny and proves what they guarantee over whole runs.

A protocol is a datatype `State`, a datatype `Step` and a total function `Next`; a step that is
not possible in a state changes nothing, so `Run` is defined for every list of steps and a
theorem about `Run` speaks of every interleaving. The remote side (Redis, PostgreSQL, the AMQP
broker, the SQL transaction) is part of that state. The objects of the source are classes with
the source's fields. The queue, the connection, the publisher and the entity carry ghost fields
`machine` and `trace` that record the steps taken, and each of their methods proves that the
fields are those of the state the trace leads to. The two mutexes are tied to their machines by
`Feed`: a method ends in the state to which the replies it was given lead. The cache's methods
are tied by `Apply`, the operation on the store that the runs are made of.

| file | what it models |
|---|---|
| `bulk.dfy` | the bulk write queue and its worker |
| `redis_server.dfy`, `redis_mutex.dfy` | the lease lock on Redis |
| `pq_mutex.dfy` | the reader/writer lock on PostgreSQL advisory locks (section 13.3.5 of the PostgreSQL documentation) |
| `consumer.dfy`, `connection.dfy`, `publisher.dfy` | RabbitMQ (delivery tags and requeue as in AMQP 0-9-1, section 3.1.8) |
| `cache.dfy` | caches sharing one Redis key space, Clear and Size |
| `lifecycle.dfy`, `registry.dfy`, `manager.dfy` | the PostgreSQL entity, the options maps, the application manager |
| `email.dfy`, `sha256.dfy`, `miniorm.dfy` | address normal form, salted hash text, SQL lists |
| `strings.dfy`, `subsequences.dfy`, `common.dfy` | the part of Go's `strings` that is used, subsequences, and shared definitions |

## Where the code does less than its documentation says

The model follows the code. Each point below is a lemma, with the exact condition where there
is one.

- Bulk queue: the flush marker itself is put back in front of the queue, although the comment
  speaks of the items following it. After the first signal some continuation commits an item if
  and only if transactions may fail (`CommitsAfterFlushIff`). Until one fails, no other
  `WaitForFlush` returns (`NoOtherFlushReturns`), and the second send on the same channel blocks
  the worker (`SecondSendBlocks`, reached in `SecondSendReached`). Appends between the copy and the reset, and
  everything queued before the worker's first reset, are dropped; a batch that fails after
  Begin is dropped whole (`ItemsAreConserved` accounts for all of them); order and barrier hold
  for what is left (`CommittedInOrder`, `FlushBarrier`). A failed Begin keeps the order exactly
  when nothing was appended since the copy (`FailedBeginKeepsOrderIff`), over a run the order is
  complete exactly when no failed Begin met newer items (`CommittedInOrder`), and the next
  signal keeps the barrier under the same condition (`FailedBeginKeepsBarrierIff`;
  `FailedBeginBreaksBarrier` is a run in which it breaks).
- Redis mutex: `locked` is set on the contended path only and cleared by Extend. Unlock
  therefore deletes the key exactly when `locked` is set (`UnlockDeletesIffLocked`), and a key
  locked without contention, or extended, stays until its deadline. Exclusion needs holders
  that finish before their deadline (`ExclusionNeedsDeadlines`).
- PostgreSQL mutex: a holder whose session ended is not excluded (`LostSessionIsNotExcluded`). A
  Lock that returns an error keeps its session and the local lock, so the object is blocked
  (`FailedLockKeepsSession`); if only the reply was lost, so is everybody else
  (`LostGrantBlocksOthers`). The Redis mutex keeps the local lock in the same way
  (`FailedLockBlocks`).
- Consumer: two subscriptions that get the same pooled channel lose messages, because each
  acknowledgement covers the other's deliveries (`SharedChannelLosesMessage`). The broker
  refuses a second subscription with the same consumer tag, so this happens if and only if the
  configured tag is empty (`LosesMessageIff`).
- Connection: when a connect fails, in either way, the pool of the previous connection stays
  (`ConnectRenewsPoolIff`). A lookup that must open a channel panics while there is no
  connection or no connect has ever succeeded (`LookupPanicsIff`).
- Publisher: the retry's result is never tested, so a successful retry returns nil and counts
  as bad (`CallAccounting`, `CountersOverRun`).
- Cache: Clear matches the bare prefix without the colon, so the cache "user" reaches the keys
  of "users" (`InterferesIff`), and it can return if and only if some matching key is stored
  (`ClearCanReturnIff`); it does when the last page of its first iteration is not empty
  (`ClearReturnsIff`).
- Lifecycle: Shutdown waits for goroutines that stop only on a cancelled context, and cancels
  none; and the worker looks at its context only between rounds. So Shutdown can return without
  a further cancellation or receiver if and only if the context of every live goroutine has been
  cancelled and no live worker is at the send of a flush that nobody receives
  (`ShutdownReturnsIff`). One `WaitForFlush` is enough to bring the worker there, and then no
  cancellation helps (`OneFlushHoldsShutdown`). Without StartWatcher Shutdown does not wait at
  all. After a Start that failed and left a handle behind, by a failed migration or by a driver
  that returns a handle with its error, the next Start returns nil and starts nothing, and with
  StartWatcher no later step starts anything (`FailedStartIsFinalIff`, `HandleLeftIff`).
- Manager: Shutdown after a failed Start begins with entities that were never started; starts
  and shutdowns are bracketed if and only if all were started or none was shut down
  (`BracketedIff`).
- Hash text: the separators are skipped unread (`PrintParseIff`).
- INSERT text: the lists line up with the tags if and only if no tag contains a comma followed by
  a blank (`InsertListsAlignIff`), and their length is right for a reader that separates at every
  comma if and only if no tag contains a comma (`ColumnCountIff`).

## Model

| member | source | states |
|---|---|---|
| BulkQueue.ItemsAreConserved | x/sqlx/bulk.go:61-140 | over every run, failures, races and commits with a lost reply included, appended = committed + dropped + pending, with multiplicities |
| BulkQueue.CommittedInOrder | x/sqlx/bulk.go:61-140 | over every run, drops included, in which no failed Begin met newer items, the committed log followed by the pending items is a subsequence of what was appended; with nothing dropped it is all of it, and for distinct items if and only if no failed Begin met newer items |
| BulkQueue.FlushBarrier | x/sqlx/bulk.go:99-137 | on such runs, when a marker is signalled, every item appended before it is committed or was dropped, and what is committed was appended before it, in that order; with nothing dropped exactly the items before it are committed, and it is the first marker appended |
| BulkQueue.BatchIsAtomic | x/sqlx/bulk.go:93-129 | in every reachable state a step leaves the log alone or adds the whole snapshot up to its first marker |
| BulkQueue.NothingCommittedAfterFlush | x/sqlx/bulk.go:131-137 | after the first signal no continuation without a failed transaction commits anything |
| BulkQueue.CommitsAfterFlushIff | x/sqlx/bulk.go:114-137 | from every reachable state at a signal some continuation commits an item if and only if transactions may fail |
| BulkQueue.NoOtherFlushReturns | providers/pq/enity.go:251-258 | after a signal no receive on another channel completes over any continuation without a failed transaction |
| BulkQueue.SecondSendBlocks | x/sqlx/bulk.go:131-132 | a send nobody will receive keeps the worker at that send and the log unchanged over every continuation |
| BulkQueue.SecondSendReached | x/sqlx/bulk.go:131-137 | one WaitForFlush and two rounds without any failure lead to such a send |
| BulkQueue.FailedBeginKeepsOrderIff | x/sqlx/bulk.go:85-91 | a failed Begin leaves the pending order unchanged if and only if the queue was empty |
| BulkQueue.FailedBeginKeepsBarrierIff | x/sqlx/bulk.go:85-137 | from every reachable state with an in-order, undropped run of distinct items and a marker pending, the signal after a failed Begin keeps the barrier if and only if nothing was appended since the copy |
| BulkQueue.ReceiveCompletes | providers/pq/enity.go:251-258 | a receive on a channel whose marker was appended once completes only by the send for that marker, and then the barrier at that marker holds |
| BulkQueue.RunKeepsInv | x/sqlx/bulk.go:61-140 | the ledger and the shape of the worker's local variables hold over every run |
| BulkQueue.CommitMovesFront | x/sqlx/bulk.go:124-135 | a commit moves the executed items, and nothing else, from the front of the pending items to the end of the log |
| BulkQueue.DropMovesItems | x/sqlx/bulk.go:75-129 | the steps that lose items, and exactly which items each loses |
| BulkQueue.StaysHeaded | x/sqlx/bulk.go:131-137 | a marker at the head stays there through every step that is not a failure, and nothing is committed |
| BulkQueue.FirstMarker | x/sqlx/bulk.go:99-108 | the length of the prefix before the first marker: data only, and a marker follows |
| BulkQueue.Execute | x/sqlx/bulk.go:99-122 | the statements executed are a prefix of the batch; it succeeds exactly when all items before the first marker are unique and execute, and names the failing call otherwise |
| BulkQueue.Queue.AppendToQueue | x/sqlx/bulk.go:61-65 | the item goes to the end; one Append step |
| BulkQueue.Queue.TakeSnapshot | x/sqlx/bulk.go:75-79 | the snapshot is the old queue, and what was appended between copy and reset is gone |
| BulkQueue.Queue.ProcessQueue | x/sqlx/bulk.go:74-140 | which call failed, how the log grew, who was signalled and what is queued, as functions of the old queue, the appends of others and the answers of the database |
| BulkQueue.Queue.Transact | x/sqlx/bulk.go:93-139 | the same for an open transaction |
| BulkQueue.Queue.Finish | x/sqlx/bulk.go:124-137 | commit, signal and re-add: log, queue and receivers afterwards in each case |
| BulkQueue.Queue.PutBack | x/sqlx/bulk.go:86-90 | after a failed Begin the snapshot goes behind the queue |
| BulkQueue.Queue.SignalAndReAdd | x/sqlx/bulk.go:131-137 | blocks exactly when nobody receives; otherwise marker and rest are put in front |
| BulkQueue.Queue.StartWorker | providers/pq/enity.go:227-229 | the worker begins by emptying the queue |
| BulkQueue.Queue.WaitForFlush | providers/pq/enity.go:251-255 | appends a marker and starts to receive on its channel; the return is ReceiveCompletes |
| RedisMutex.MutualExclusion | providers/redis/mutex.go:84-166 | for any number of objects with distinct values, interleaved at single commands with lost replies and expiry: if every holder finishes before its key's deadline, two objects with one key never hold it together |
| RedisMutex.DelRemovesOwnKey | providers/redis/mutex.go:128-166 | on such runs a DEL or EXPIRE about to run meets the object's own live key |
| RedisMutex.RunKeepsInv | providers/redis/mutex.go:84-166 | active objects own their key and the key carries their deadline |
| RedisMutex.CommandKeepsOwner | providers/redis/mutex.go:100-166 | a command, its reply lost or not, keeps its own object good |
| RedisMutex.CommandKeepsOther | providers/redis/mutex.go:100-166 | and every other object |
| RedisMutex.LateHolderIsNotExcluded | providers/redis/mutex.go:100-106 | whenever a holder's key has expired one Lock by any idle object makes two holders |
| RedisMutex.ExclusionNeedsDeadlines | providers/redis/mutex.go:100-126 | two objects sharing a key with an expiry both hold it in some run |
| RedisMutex.FailedLockBlocks | providers/redis/mutex.go:84-126 | a Lock that returns an error keeps the local lock, so the object cannot lock again; with only the reply lost the key is set although nobody holds it |
| RedisMutex.LateCommandTouchesNothing | providers/redis/mutex.go:128-166 | an Unlock or Extend after the deadline finds no key and changes nothing on the server |
| RedisMutex.UnlockDeletesIffLocked | providers/redis/mutex.go:128-146 | a holder's Unlock removes the key if and only if `locked` is set |
| RedisMutex.UncontendedLockOutlivesUnlock | providers/redis/mutex.go:100-146 | a first-attempt Lock followed by Unlock leaves the key with its value, live for ever without an expiry and otherwise for exactly that long, and no other key changed |
| RedisMutex.LeaseLastsIff | providers/redis/mutex.go:100-126 | a time d after a grant the key is live, and refuses the SET NX of every other object, if and only if there is no expiry or d is less than it |
| RedisMutex.ShortHoldIsTimely | providers/redis/mutex.go:84-146 | a lock held for less than its expiry and released is a run in which every holder finishes in time |
| RedisMutex.ExtendThenUnlock | providers/redis/mutex.go:148-166 | Extend moves a holder's deadline exactly when `locked` is set, or removes the key for a timeout that is not positive; it clears `locked`, so the key then outlives Unlock |
| RedisMutex.Mutex.constructor | providers/redis/mutex.go:59-80 | a new object is unlocked |
| RedisMutex.Mutex.Lock | providers/redis/mutex.go:84-87 | returns nil exactly when the last reply granted the key, all earlier ones having refused; the object is where the machine's replies lead |
| RedisMutex.Mutex.CommonLock | providers/redis/mutex.go:100-126 | the polling loop, with `locked` set exactly by a first refusal |
| RedisMutex.Mutex.PollLoop | providers/redis/mutex.go:109-123 | after a refused first reply the loop returns nil exactly at the first granting reply, stops at the first failing one, and polls on otherwise |
| RedisMutex.Mutex.Unlock | providers/redis/mutex.go:90-93 | releases the local lock, then the key |
| RedisMutex.Mutex.CommonUnlock | providers/redis/mutex.go:128-146 | when DEL is sent, when `locked` is cleared and when an error is returned |
| RedisMutex.Mutex.Extend | providers/redis/mutex.go:96-166 | when EXPIRE is sent, when `locked` is cleared and when an error is returned |
| PqMutex.Exclusion | providers/pq/mutex.go:93-187 | in every reachable state, session reuse, lost replies and lost sessions included, two holders of one id on live sessions are both readers |
| PqMutex.ReadersCoexist | providers/pq/mutex.go:117-171 | while a reader holds the lock the request of any other reader on a live session is granted |
| PqMutex.UnlockReleases | providers/pq/mutex.go:173-187 | no session in the pool, or about to be given back, holds a lock |
| PqMutex.UnlockGivesBack | providers/pq/mutex.go:173-187 | from every reachable state an Unlock without a fault leaves no connection, `locked` cleared, and the session in the pool without a lock |
| PqMutex.FailedLockKeepsSession | providers/pq/mutex.go:144-161 | a failing or cancelled request ends the Lock without the lock and keeps session and local lock, so the object cannot lock again |
| PqMutex.LostGrantBlocksOthers | providers/pq/mutex.go:144-146 | a grant whose reply was lost refuses every other object although nobody holds the lock |
| PqMutex.FailedConnectKeepsMutex | providers/pq/mutex.go:139-142 | a failed connect leaves no session and no lock, keeps the local lock, and so stops every later Lock of the object |
| PqMutex.FailedUnlockBlocksOthers | providers/pq/mutex.go:173-177 | from every reachable state an Unlock whose request fails gives up the local lock and keeps session, flag and advisory lock, so other objects stay refused |
| PqMutex.MinusPlus | providers/pq/mutex.go:18-21 | releasing once undoes granting once in the lock table |
| PqMutex.LostSessionIsNotExcluded | providers/pq/mutex.go:133-171 | from every reachable state with a writer on a live session, the end of that session and one LockContext by any idle object make two writers |
| PqMutex.RunKeepsInv | providers/pq/mutex.go:93-187 | granted locks are compatible, sessions are not shared, and each session holds at most the lock its object's position allows |
| PqMutex.GrantKeepsCompatible | providers/pq/mutex.go:18-19 | a grant that meets no conflict keeps the lock table compatible |
| PqMutex.LockIDRange | providers/pq/mutex.go:76-83 | every generated id is a multiple of 4 in [0, 2^32) |
| PqMutex.SameLockIDIff | providers/pq/mutex.go:76-83 | two ids are equal if and only if the checksums agree modulo 2^30 |
| PqMutex.LockIDIsLinear | providers/pq/mutex.go:15-83 | checksum 1 gives the salt, and the id of a sum is the sum of the ids modulo 2^32 |
| PqMutex.HashedNamesInjective | providers/pq/mutex.go:76-80 | the hashed text determines the names when none contains a NUL |
| PqMutex.HashedNamesSplit | providers/pq/mutex.go:76-80 | the hashed text splits at NUL into the additional names followed by the database name |
| PqMutex.Mutex.constructor | providers/pq/mutex.go:60-73 | a new object is unlocked and has no session |
| PqMutex.Mutex.GenerateLockID | providers/pq/mutex.go:76-83 | sets the id of the hashed names |
| PqMutex.Mutex.LockContext | providers/pq/mutex.go:93-96 | returns nil exactly when the last reply granted the lock, all earlier ones having refused; the object is where the machine's replies lead |
| PqMutex.Mutex.CommonLock | providers/pq/mutex.go:133-171 | the same for the ticker loop, with cancellation and failing requests; `locked` is set exactly by a first request that does not fail |
| PqMutex.Mutex.UnlockContext | providers/pq/mutex.go:104-107 | releases the local lock, then the advisory lock and the session |
| PqMutex.Mutex.CommonUnlock | providers/pq/mutex.go:173-187 | nil exactly when not locked or request and close succeed; `locked` stays set otherwise, and the session is given up exactly when the request succeeded |
| Consumer.NoMessageLost | providers/rabbitmq/consumer/consumer.go:97-152 | every published message is ready, unacknowledged on a channel, or acknowledged |
| Consumer.AtLeastOnce | providers/rabbitmq/consumer/consumer.go:97-143 | with one subscription per channel, every message discarded as acknowledged was handed to Consume before |
| Consumer.AckIsConsumed | providers/rabbitmq/consumer/consumer.go:121-129 | a cumulative acknowledgement covers consumed messages only |
| Consumer.OneActiveLoop | providers/rabbitmq/consumer/consumer.go:130-152 | each Subscribe call has at most one active loop, however often it reconnects |
| Consumer.NextKeepsOneActive | providers/rabbitmq/consumer/consumer.go:130-152 | every step keeps that |
| Consumer.SharedChannelDiscards | providers/rabbitmq/consumer/consumer.go:124-129 | on a shared channel one loop's acknowledgement discards the other's undelivered message |
| Consumer.SharedChannelLosesMessage | providers/rabbitmq/connection/connection.go:169-182 | from every reachable state in which an open channel carries two subscriptions and the loop of one is listening or handling, some continuation discards a message nobody was handed |
| Consumer.LosesMessageIff | providers/rabbitmq/consumer/consumer.go:75-143 | some run with channels opened for one consumer tag discards a message nobody was handed if and only if the tag is empty |
| Consumer.TagMakesExclusive | providers/rabbitmq/consumer/consumer.go:75-86 | with a tag that is not empty no two subscriptions ever share a channel |
| Consumer.Drain | providers/rabbitmq/consumer/consumer.go:121-129 | working off a buffer whose last delivery carries a later tag ends with an acknowledgement that covers the waiting message |
| Consumer.AckFollowsConsume | providers/rabbitmq/consumer/consumer.go:121-129 | in every effect trace of a loop an acknowledgement directly follows the hand-over of the delivery it names |
| Consumer.LoopDoesItsWork | providers/rabbitmq/consumer/consumer.go:102-129 | for every well-timed list of events: one sleep per failed connect, the deliveries handed over once each and in order, and each acknowledged whether its handler succeeded or not, except the one being handled |
| Consumer.RetriesForEver | providers/rabbitmq/consumer/consumer.go:102-109 | after any number n of failed connects the loop has slept n times and still connects, and the next success makes it listen |
| Consumer.LoopEndsIff | providers/rabbitmq/consumer/consumer.go:113-142 | a loop is done if and only if its context was cancelled or its channel closed; the handler is shut down, and a new loop started, exactly in the cases the code names |
| Consumer.CancelledLoopStops | providers/rabbitmq/consumer/consumer.go:115-120 | a listening loop whose context is cancelled ends for good and starts no other |
| Consumer.RequeuedIsHandedOver | providers/rabbitmq/consumer/consumer.go:130-140 | from every reachable state an unacknowledged message of a listening loop whose channel is lost is handed over in some continuation, by a new loop of the same call |
| Consumer.HandlingAfterConsume | providers/rabbitmq/consumer/consumer.go:124-126 | while a delivery is handled, its hand-over is the last effect |
| Consumer.SubscribeLoop | providers/rabbitmq/consumer/consumer.go:97-143 | the two loops have the effects of the machine's loop on every well-timed list of events |
| Consumer.ConnectLoop | providers/rabbitmq/consumer/consumer.go:102-109 | the first loop: sleep after each failure, stop at the first success |
| Consumer.ListenLoop | providers/rabbitmq/consumer/consumer.go:113-142 | the second loop: hand over, acknowledge, resubscribe or stop |
| Cache.CachesAreIndependent | providers/redis/cache/cache.go:56-210 | over every interleaving of operations, single pages of a Clear and time, a cache no other can reach holds exactly what its own operations put there |
| Cache.InterleavedClear | providers/redis/cache/cache.go:180-210 | a Clear whose pages interleave with the other caches and cover every key that was there leaves nothing of the cache |
| Cache.GetReadsOwnMap | providers/redis/cache/cache.go:69-85 | Get answers from that private map, up to expiry |
| Cache.InterferesIff | providers/redis/cache/cache.go:56-210 | some operation of one cache can change an entry of another if and only if its bare prefix and the other's prefix with colon are comparable |
| Cache.UnrelatedPrefixesAreApart | providers/redis/cache/cache.go:56-66 | prefixes of which neither begins with the other keep caches apart |
| Cache.OwnOpKeepsView | providers/redis/cache/cache.go:111-210 | an operation acts on its own cache as on a private map |
| Cache.OtherOpKeepsView | providers/redis/cache/cache.go:111-210 | and leaves a cache it cannot reach alone |
| Cache.SameKeyIff | providers/redis/cache/cache.go:64-66 | built keys are equal exactly when the keys are |
| Cache.BuiltKeyParts | providers/redis/cache/cache.go:56-66 | without colons in the parts a built key splits at the colons into global prefix, prefix and key, the first only when it is set |
| Cache.ShareKeyIff | providers/redis/cache/cache.go:56-66 | two such configurations build a common key if and only if global prefix and prefix agree |
| Cache.IterationIsClear | providers/redis/cache/cache.go:180-210 | after a complete scan iteration, duplicates allowed, exactly the keys under the prefix are gone |
| Cache.EmptyAfterwards | providers/redis/cache/cache.go:190-192 | every page after a complete iteration is empty |
| Cache.ClearEndsWithFirstIteration | providers/redis/cache/cache.go:190-207 | a page on which Clear returns belongs to the first iteration, and a matching key was there |
| Cache.ClearReturnsIff | providers/redis/cache/cache.go:190-207 | Clear can return nil if and only if the last page of the first iteration is not empty |
| Cache.ClearCanReturnIff | providers/redis/cache/cache.go:180-210 | some honest paging lets Clear return nil if and only if a matching key is stored |
| Cache.PageIsOp | providers/redis/cache/cache.go:194-203 | deleting a page of matching keys is the page operation of the runs |
| Cache.SizeIsUpperBound | providers/redis/cache/cache.go:213-232 | on an unchanged store the count is at least the number of matching keys, and exact if and only if no key came twice |
| Cache.FlatIsAllPages | providers/redis/cache/cache.go:214-229 | the count is the sum over all pages, and a key is counted exactly when it is on some page |
| Cache.IterStart | providers/redis/cache/cache.go:181-207 | where the iteration of a page began: at cursor 0, with no cursor 0 since |
| Cache.CacheClient.SetKey | providers/redis/cache/cache.go:111-117 | Get finds the value at every time if no clear time is set, and otherwise exactly until now plus the clear time; no other key changes |
| Cache.CacheClient.SetNXKey | providers/redis/cache/cache.go:120-126 | when Get found the key nothing changes; otherwise, an expired entry included, Get finds the value for exactly the clear time; no other key changes |
| Cache.CacheClient.DeleteKey | providers/redis/cache/cache.go:171-177 | Get finds the key at no time, and no other key changes |
| Cache.CacheClient.ClearAll | providers/redis/cache/cache.go:180-210 | the loop: when it returns nil and the scan was honest, the store is the old one without the keys under the prefix; what is deleted when a scan or deletion fails |
| Cache.CacheClient.Size | providers/redis/cache/cache.go:213-232 | the loop sums the keys of the pages up to cursor 0, or returns -1 on a failed scan |
| Connection.PooledChannelsAreCurrent | providers/rabbitmq/connection/connection.go:87-247 | in every reachable state whose last connect returned nil, every pooled channel was opened on the current connection |
| Connection.LostChannelIsRemoved | providers/rabbitmq/connection/connection.go:220-247 | a lost pooled channel still has a watcher, which takes it out |
| Connection.LeavesPoolIff | providers/rabbitmq/connection/connection.go:220-247 | a key leaves the pool exactly by a successful connect or by the watcher of a lost channel under that key before Close |
| Connection.DropLosesPool | providers/rabbitmq/connection/connection.go:220-247 | a dropped connection loses every pooled channel, and its watcher then removes it |
| Connection.ConnectRenewsPoolIff | providers/rabbitmq/connection/connection.go:87-100 | both kinds of failed connect keep the pool, whose channels are then on no current connection; a connect leaves the pool current if and only if it succeeds or nothing was pooled |
| Connection.PoolMadeIff | providers/rabbitmq/connection/connection.go:34-100 | the pool can be written if and only if some connect succeeded |
| Connection.LookupPanicsIff | providers/rabbitmq/connection/connection.go:197-218 | no lookup panics after a connect that returned nil; one that must open a channel panics if and only if there is no connection or no connect ever succeeded |
| Connection.Failures | providers/rabbitmq/connection/connection.go:131-138 | the number of failed dials before the first success |
| Connection.ConnectionObject.constructor | providers/rabbitmq/connection/connection.go:34-41 | a new object has no connection and a nil pool |
| Connection.ConnectionObject.Connect | providers/rabbitmq/connection/connection.go:87-100 | connection, service channel and pool after each of the three outcomes of connect |
| Connection.ConnectionObject.Reconnect | providers/rabbitmq/connection/connection.go:130-139 | dials up to the first success, at most once per policy entry, and sleeps exactly the timeouts of the failed attempts |
| Connection.ConnectionObject.GetChannelFromPool | providers/rabbitmq/connection/connection.go:197-218 | the pooled channel, or a new one on the current connection with its watcher; when it returns an error and when it panics |
| Connection.ConnectionObject.ChanWatcher | providers/rabbitmq/connection/connection.go:233-242 | removes whatever its key maps to now, unless closed |
| Connection.ConnectionObject.Close | providers/rabbitmq/connection/connection.go:64-81 | the flag is set first, the channels are closed up to the first failure, then the connection; the four outcomes; on success every pooled channel is lost |
| Publisher.CallAccounting | providers/rabbitmq/publisher/publisher.go:76-132 | over every interleaving a call publishes at most twice, is accepted at most once, returns nil exactly when accepted, and bumps exactly one counter |
| Publisher.DeclaresAreBounded | providers/rabbitmq/publisher/publisher.go:57-132 | for any interleaving of callers, successful declares never exceed failed publishes plus one |
| Publisher.CountersOverRun | providers/rabbitmq/publisher/publisher.go:95-106 | once all calls returned, the counters add up to the calls and the ok counter misses exactly the successful retries |
| Publisher.CountersMissRetries | providers/rabbitmq/publisher/publisher.go:95-106 | the same as a sum over any list of finished calls |
| Publisher.CallsOk | providers/rabbitmq/publisher/publisher.go:76-132 | the history of a call at each of its positions, over every run |
| Publisher.StepBalances | providers/rabbitmq/publisher/publisher.go:57-132 | a step moves the shared counters by what it adds to the call's own |
| Publisher.PublisherObject.Connect | providers/rabbitmq/publisher/publisher.go:57-73 | declares at most once while connected |
| Publisher.PublisherObject.SendOnce | providers/rabbitmq/publisher/publisher.go:111-132 | one attempt: connect if needed, publish, clear the flag on failure |
| Publisher.PublisherObject.SendMessage | providers/rabbitmq/publisher/publisher.go:76-109 | result, both counters and the flag after a call, in every case |
| Publisher.PublisherObject.BeginCall | providers/rabbitmq/publisher/publisher.go:88-92 | the first connect of a call |
| Publisher.PublisherObject.CountMessage | providers/rabbitmq/publisher/publisher.go:150-164 | one counter is bumped and the call returns |
| Lifecycle.AtMostOneEach | providers/pq/enity.go:127-244 | over every interleaving at most one watcher and one queue worker are alive |
| Lifecycle.ShutdownWaits | providers/pq/enity.go:77-94 | with StartWatcher the step on which Shutdown returns finds both goroutines gone |
| Lifecycle.ShutdownWithoutWaiting | providers/pq/enity.go:88-90 | without StartWatcher the goroutines are left running |
| Lifecycle.FailedStartIsFinalIff | providers/pq/enity.go:88-147 | after every Start that returned an error: with a handle left the next Start returns nil and starts nothing, and some continuation starts a goroutine if and only if no handle is left or StartWatcher is off |
| Lifecycle.HandleLeftIff | providers/pq/enity.go:135-147 | a handle is left exactly by a failed migration and by a driver that returns one with its error |
| Lifecycle.ShutdownNeedsCancellation | providers/pq/enity.go:77-87 | while the context of a live watcher or worker is not cancelled no continuation lets Shutdown return |
| Lifecycle.ShutdownReturnsIff | providers/pq/enity.go:77-94 | from any reachable point of the waiting loop some continuation without cancellation or new receiver makes Shutdown return nil if and only if the context of every live goroutine is cancelled and no live worker is at a send nobody receives |
| Lifecycle.HeldWorkerKeepsShutdown | providers/pq/enity.go:231-243 | a worker at such a send keeps Shutdown waiting over every continuation in which nobody starts to receive, cancellations included |
| Lifecycle.FollowsQueue | providers/pq/enity.go:227-243 | the worker of the entity follows every run of the bulk queue machine, place and receivers step by step |
| Lifecycle.QueueHoldsShutdown | x/sqlx/bulk.go:131-132 | for every run of the queue that ends at a send nobody receives, an entity whose contexts are all cancelled hangs in Shutdown |
| Lifecycle.OneFlushHoldsShutdown | providers/pq/enity.go:251-258 | one WaitForFlush leads there |
| Lifecycle.Entity.constructor | providers/pq/enity.go:37-65 | both flags start as stopped |
| Lifecycle.Entity.Start | providers/pq/enity.go:127-172 | the result, the handle and the flags afterwards, for each pair of handle and error the driver can return |
| Lifecycle.Entity.StartWatcherOnce | providers/pq/enity.go:155-160 | a watcher is added exactly when none runs |
| Lifecycle.Entity.StartWorkerOnce | providers/pq/enity.go:164-169 | a worker is added exactly when configured and none runs |
| Lifecycle.Entity.StopWatcher | providers/pq/enity.go:180-183 | a watcher stops only on its cancelled context |
| Lifecycle.Entity.StopWorker | providers/pq/enity.go:231-236 | the worker stops exactly on its cancelled context and between two rounds |
| Lifecycle.Entity.MoveWorker | providers/pq/enity.go:237-242 | the worker goes from round to round, and leaves a send only when somebody receives |
| Lifecycle.Entity.Shutdown | providers/pq/enity.go:77-94 | when it returns with StartWatcher nothing is alive and the connection stays; without, it closes and does not wait |
| Lifecycle.Entity.CloseConnection | providers/pq/enity.go:193-206 | the connection is dropped exactly when closing succeeds |
| Lifecycle.Entity.WaitForBoth | providers/pq/enity.go:82-87 | the waiting loop returns only when both goroutines are gone |
| Registry.AppendSucceedsIff | base/check_options.go:32-45 | for every visit order Append succeeds if and only if the maps are disjoint, and then gives their union |
| Registry.AppendNeverOverwrites | base/metric_options.go:133-146 | no existing entry changes and only entries of the source are added, also on failure |
| Registry.AppendAddsBeforeConflict | base/check_options.go:36-42 | of the source exactly the entries visited before the first conflict are added, also by a failing Append |
| Registry.BeforeConflict | base/check_options.go:36-39 | the entries visited before the first name already taken |
| Registry.Merge | base/check_options.go:36-44 | the loop leaves the destination with exactly the entries before the first conflict |
| Registry.MapOptions.Append | base/check_options.go:32-45 | the same on the object |
| Registry.MapOptions.Add | base/check_options.go:47-70 | succeeds if and only if the options are given, named, complete and new; then that entry is the only difference; no existing entry ever changes |
| Manager.OrderListsEntities | app/app.go:251-264 | after any series of Adds, failing ones included, the order has no duplicates and lists exactly the registered names |
| Manager.AddOutcome | app/app.go:251-285 | which error is returned in which case; a taken name changes nothing, a new one is registered at the end of the order also when a merge fails, and which maps have grown by then |
| Manager.FirstAddWins | app/app.go:257-264 | over every series of Adds the entity under a name is that of the first Add with the name, also when that Add failed |
| Manager.NamesAreRegistered | app/app.go:251-285 | and the registered names are exactly the names of the Adds |
| Manager.AddSucceedsIff | app/app.go:251-285 | an Add succeeds if and only if name and offered names are new, and then the maps grow by what was offered |
| Manager.AddNeverOverwrites | app/app.go:251-285 | no Add changes an entity, an entry or an earlier place in the order |
| Manager.RegistriesAreUnions | app/app.go:266-282 | after successful Adds each map is the disjoint union of the entities' maps, for every visit order |
| Manager.TraceIsBracketed | app/app.go:223-249 | when all succeed, starts and shutdowns are bracketed last in, first out |
| Manager.BracketedIff | app/app.go:223-249 | after n starts and k shutdowns the trace is bracketed if and only if all were started or none was shut down |
| Common.Passing | app/app.go:226-229 | how many elements pass before the first that does not, each of them passing |
| Manager.ReverseTwice | x/stringsx/strings.go:25-31 | reversing twice gives the list back |
| Manager.ReverseStringSlice | x/stringsx/strings.go:25-31 | the loop computes the reversal |
| Manager.ManagerObject.AddEntity | app/app.go:251-285 | result and state of Add, the partial merges of a failure included; a taken name changes nothing, and a new one is registered in any case |
| Manager.ManagerObject.Start | app/app.go:223-237 | starts the entities in order up to the first failure |
| Manager.ManagerObject.Shutdown | app/app.go:239-249 | shuts them down in reverse order up to the first failure |
| Sha256.ParsePrint | crypto/sha256/sha256.go:73-129 | parsing a printed hash with its salt size gives back salt and hash |
| Sha256.PrintParseIff | crypto/sha256/sha256.go:107-129 | printing what was parsed gives the text back if and only if its separators are the printer's |
| Sha256.AcceptedIff | crypto/sha256/sha256.go:84-105 | a text is accepted if and only if it is long enough, names the algorithm and carries the digest of the password followed by its own salt |
| Sha256.GeneratedIsAccepted | crypto/sha256/sha256.go:46-105 | a generated hash carries its salt and the digest of password and salt, and is accepted for its password, for every salt |
| Sha256.HashText | crypto/sha256/sha256.go:73-82 | the text built piece by piece parses back to salt and hash |
| Sha256.NewFromHash | crypto/sha256/sha256.go:107-129 | the moving position finds the fields of the specification, or fails as it does |
| MiniORM.RequestParams | x/sqlx/miniorm/miniorm.go:148-160 | the tags of every struct shape, embedded ones first, appended to the list given |
| MiniORM.EveryTagIsListed | x/sqlx/miniorm/miniorm.go:148-160 | every tag is listed as often as it occurs in the struct, at any depth, and an empty one never |
| MiniORM.FlattenSnoc | x/sqlx/miniorm/miniorm.go:152-159 | one more field adds its own tags at the end |
| MiniORM.ContainsAll | x/sqlx/miniorm/miniorm.go:102-114 | NewORM's check succeeds exactly when every predefined field is a column |
| MiniORM.Find | x/sqlx/miniorm/miniorm.go:104-110 | the inner search |
| MiniORM.InsertListsAlignIff | x/sqlx/miniorm/miniorm.go:206-210 | columns and placeholders split back to the same names in the same order if and only if no tag contains a comma followed by a blank |
| MiniORM.ColumnsArePieces | x/sqlx/miniorm/miniorm.go:206-210 | for every list of tags the two texts split into the pieces of the tags, one after the other |
| MiniORM.PlaceholdersArePrefixed | x/sqlx/miniorm/miniorm.go:210 | the placeholder text is the list of names behind colons |
| MiniORM.ColumnCountIff | x/sqlx/miniorm/miniorm.go:206-210 | separated at every comma the column list has one entry per tag if and only if no tag contains a comma |
| MiniORM.InsertTextParts | x/sqlx/miniorm/miniorm.go:208-210 | without opening parentheses in target and tags the INSERT text splits into the target, the columns, and the placeholders behind VALUES |
| MiniORM.UpdateListSplitsIff | x/sqlx/miniorm/miniorm.go:247-249 | the assignment list splits back under the same condition, and only then |
| MiniORM.WithoutConcat | x/sqlx/miniorm/miniorm.go:264-281 | filtering distributes over concatenation, so it keeps the order |
| MiniORM.WithoutCounts | x/sqlx/miniorm/miniorm.go:264-281 | every kept name keeps its multiplicity and no removed one is left |
| MiniORM.ORM.GetCachedStmt | x/sqlx/miniorm/miniorm.go:201-218 | the cached text is the INSERT text; a failed preparation caches nothing |
| MiniORM.ORM.RequestParamsWithout | x/sqlx/miniorm/miniorm.go:264-281 | the loop computes the filter |
| MiniORM.ORM.BuildQuery | x/sqlx/miniorm/miniorm.go:283-290 | one assignment per column, in order |
| Strings.SplitJoinIff | x/stringsx/strings.go:12-14 | splitting undoes joining if and only if no element contains the separator, for separators that do not overlap themselves |
| Strings.SameInLowerCaseIff | x/email/email.go:35 | two texts are the same in lower case if and only if they differ in the case of letters only |
| Email.Idempotent | x/email/email.go:33-67 | normalising a result changes nothing, for every address that parses |
| Email.FixedIffNormal | x/email/email.go:33-67 | the addresses left alone are exactly those in the independently described normal form |
| Email.ResultIsNormal | x/email/email.go:33-67 | every result is in normal form |
| Email.NormalIsFixed | x/email/email.go:33-67 | every normal form is left alone |
| Email.AcceptedIff | x/email/email.go:20-30 | an address is accepted if and only if it contains an at sign |
| Email.GmailAliases | x/email/email.go:42-57 | both of Google's domains in any case, dots in the user, and a sub-address or none, give the same result |
| Email.SameMailboxIff | x/email/email.go:42-57 | two such addresses normalise to the same text if and only if their users agree without dots |
| Email.SubAddressDropped | x/email/email.go:51-63 | at Outlook, iCloud and Yahoo, in any case, exactly the sub-address is dropped, and a user that begins with the mark is kept whole |
| Email.SameSubAddressedIff | x/email/email.go:51-63 | two such addresses agree if and only if users and domains do, in lower case |
| Email.OtherProviders | x/email/email.go:33-67 | at every other domain only the case changes, and the old name of Google in the domain |
| Email.SecondAtIgnored | x/email/email.go:20-30 | what follows a second at sign is ignored |
| Email.NothingToReplace | x/email/email.go:43 | replacing googlemail.com never creates a new one |
| Email.SuffixNotCreated | x/email/email.go:43 | nor the beginning of one at any suffix |
| Email.CutIsStable | x/email/email.go:55-63 | cutting a sub-address is stable and adds nothing |

## Left out

- Several goroutines sharing one mutex object: both mutexes release the local lock before the remote one, so each object is driven by one goroutine, and every field access is one atomic step. Nested RWLockContext calls on one object, which overwrite its session, belong here too.
- Lock, Unlock, RWLock and RWUnlock of the PostgreSQL mutex: they take the non-reentrant local lock twice and never get past it; the Context variants are modelled.
- IsLocked, and a change of the lock id while the lock is held.
- Durations: timeouts and expiries are integers, an expiry argument is not negative, and nothing is said about how long a waiting loop takes.
- Liveness: the results are safety properties and properties of returned results.
- The broker, PostgreSQL and Redis are abstract machines; a publish counts as accepted exactly when its error is nil, and a deletion pipeline that returns an error counts as not applied.
- Pattern characters in cache prefixes, keys that expire or are written by others during a Clear walk, and the decoding of cached values.
- Termination of the two scan loops and of the consumer's loops: the methods take the answers as a finite list and report when it runs out.
- BulkQueue.Queue.ProcessQueue: the appends of other goroutines during one call come in two groups, before and after the reset; the machine has them at every step. Prepare is not modelled beyond its ignored result, IsUnique and NamedExec are given as functions of the item, and a nil mutex or database of NewQueue is assumed to be set.
- The queue worker's stop on a cancelled context between two rounds of the bulk queue; the lifecycle model has it.
- The connection watcher's dereference of nil after a round in which every dial failed. Lookups do not overlap a running connect, which the connection lock excludes for Publish and Consume. Channel watchers that end because the context is done are not modelled.
- BulkQueue.Queue.WaitForFlush: stops where it starts to receive, because another goroutine completes it; BulkQueue.ReceiveCompletes states what holds when it does.
- Lifecycle.FollowsQueue: the queue is one machine. With StartWatcher off, a Start after a Shutdown creates a new queue while an old worker may still be inside a round of the old one. After a failed connect that left a handle there is no queue, and appending to it dereferences nil.
- Consumer.LosesMessageIff: a refused subscription leaves the loop connecting; that the broker also closes the connection then is the step that loses a channel. Queue name and other settings are the same for all channels.
- Sha256.AcceptedIff: the hex digest of SHA-256 is a parameter, salts are given, and slicing is judged at the length of the slice, not at a larger capacity. CRC-32 is a parameter of the lock id in the same way.
- Email.Idempotent: over ASCII addresses; Unicode case folding is not part of the model.
- MiniORM.RequestParams: for structs that embed structs; reflection panics on an embedded pointer or scalar and on an unexported embedded struct.
- Manager.ManagerObject.Start: the statistics endpoint is one success flag; building names with a provider prefix is not modelled, names are given. The signal loop of the manager is I/O.
- SQL execution of the ORM (select, delete, soft delete), since those texts have no list to align.
- Prometheus objects, logging, HTTP handlers, configuration defaults and metric name building: counters are numbers here.
- The ClickHouse, MongoDB, graph, OPC UA and Echo providers, swagger, the REST client, migrations, types, phone, bcrypt, signing, time helpers: they pass calls to libraries or have only easy members.
