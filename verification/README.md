# Locks, schedulers and launchers: a Dafny model

The repository holds two small database systems. In `a2` transactions with declared key sets run
under a deterministic two-phase locking scheduler: one scheduler thread asks for all locks of a
transaction in request order, a thread pool runs the transactions that have their locks, and the
scheduler commits them and releases. In `a1` requests add numbers to the fields of records under
record locks taken in ascending order, and launchers run each request in a thread or a process of
its own, with a bounded number of permits.

The project models both and proves that concurrency makes no difference: every interleaving gives
what the serial run gives, nothing deadlocks, and every run comes to an end.

## How it is built

Code that changes objects is modelled as classes whose methods say what the new state is, in terms
of functions (`LockManager`, `TxnProcessor`, `RequestObjects`, `CopyRequest`, `ThreadArgs`,
`MvccStorage`, and the queue in `ThreadPool`). Threads are modelled as step systems over the same
functions: a state, the events that are enabled in it, and the state after each event. A run is any
legal sequence of events, so a lemma about all runs is about all interleavings.

| part | files |
|---|---|
| words, bytes | `Base`, `Bytes` |
| the lock table and the lock manager objects | `LockTable`, `LockCalls`, `LockSequences`, `LockManager` |
| transactions, buffered and direct execution, the serial scheduler | `Transactions`, `TxnTypes`, `TxnProcessor` |
| the locking scheduler with its workers | `LockingScheduler` (steps), `LockingInvariant`, `LockingSteps`, `LockingAdmit`, `LockingTheorems`, `LockingProgress`, `LockingReady`, `LockingStarvation` |
| record locking | `Records`, `OrderedLocking`, `RequestObjects` |
| copying requests into flat buffers | `CopyRequest` |
| launchers | `Launchers` (steps), `LauncherPermits`, `LauncherArgs`, `LauncherReaping`, `LauncherProgress`, `ThreadArgs` |
| the thread pool | `ThreadPool` |
| multiversion timestamp ordering, from its written contract | `MvccVersions`, `MvccScheduler`, `MvccChecks`, `MvccLocking`, `MvccProgress`, `MvccCompletion`, `MvccStorage` |

A transaction's `Run` is an arbitrary deterministic program: a function from what it has seen so
far to its next action. `DIE` ends the model's process (`died`). A transaction is known by its
position in the request order, which is its `unique_id_` less one.

## Where the code is not as described

- The comments in `a1/src/process_launcher.cc:124-129` and `a1/src/thread_launcher.cc:8-12` say that
  at most `max_outstanding` requests are outstanding at any time. A worker is started before its
  permit is taken, so there can be one more, with either launcher and whatever the limit:
  `OneOverTheLimit`. `PermitAccounting` says exactly when the limit is kept.
- `Request::CopySize` adds the numbers of writes and fields in 32 bits. It is the size of the copy
  exactly when that sum does not wrap around: `CopySizeExact`, and `CopySizeWraps` for an input that
  passes the pool's size check though its copy takes 32 gigabytes.
- A comment in `a2/utils/static_thread_pool.h:102` says that a stopped worker goes through all
  queues; it goes through its own. `AddTask` checks the flag only on entry, and a task it pushes after
  the queue's worker has gone is never run. So stopping the pool is safe exactly while no `AddTask` is
  under way: `StopSafeIff`. `LostAreLate` says which tasks a given run loses, and `TaskLost` is the
  smallest such run.
- After `WaitOutstanding` a process launcher may still lack permits, since a child counts its
  request as executed before it returns its permit: `ProcessPermitOut`, for every limit. A thread
  launcher always has all of them back: `PermitsBackIff`, and `PermitsBackWhen` for one return.
- Nothing calls `Txn::CheckReadWriteSets`, so nothing enforces that read set and write set are
  disjoint, which `a2/txn/lock_manager.h:38-39` needs. The locking scheduler stays serially
  equivalent all the same: the runs here are of arbitrary requests. But a transaction with a key in
  both sets waits behind its own first request for ever (`SecondLockRefused`), and so does every later
  one that may not share a key with one that does: `Starves` defines them, `StarvedNeverRuns` says that
  they are never dispatched or returned, and `CanComplete` that all others can be. Under multiversion
  timestamp ordering, which has no lock manager, such requests do no harm.
- The serial scheduler dies at the first transaction that dies or does not vote. The serial store that
  other runs are compared with goes on behind it, so for a transaction that a locking scheduler finishes
  behind a fatal one the comparison is with what the serial scheduler would have computed.
  `DiesIff` says that a run that has come to its end has died exactly if some request is fatal.
- `a2/txn/lock_manager.h:50-55` makes a release grant the next request only when the lock was held.
  Cancelling an exclusive request in the middle of a queue also grants the shared requests behind
  it, by the prefix rule at lines 70-82 and by `a2/txn/lock_manager_test.cc:174-185`. The model
  follows the prefix rule.
- `a2/txn/lock_manager.h:109-111` says that a `Release` with a transaction invalidates its entry in
  `txn_waits_`. The model goes on counting: the entry stays the number of keys the transaction still
  waits for. The two agree for the scheduler, which releases only for transactions that wait for
  nothing.

## Model

| member | source | states |
|---|---|---|
| LockTable.GrantedIff | a2/txn/lock_manager.h:70-95 | a queued request holds the lock exactly when it is the first, or it and all before it are shared |
| LockTable.KeptStayGranted | a2/txn/lock_manager.h:50-55 | a release, of a holder or a waiter, revokes no other holder |
| LockTable.ReleaseEffect | a2/txn/lock_manager.h:50-62 | the released transaction, if it asked once, neither holds nor waits; others keep what they have; the newly granted are exactly those that hold now and did not before, each once |
| LockTable.EnqueueEffect | a2/txn/lock_manager.h:34-48 | a new request changes no earlier one's standing, and is granted exactly if the whole queue is; a second one of the same transaction is not |
| LockTable.RequestKeepsInv | a2/txn/lock_manager.h:109-112 | after a request, `txn_waits_` still counts the keys each transaction waits for, and more than those if it waits behind itself |
| LockTable.ReleaseKeepsInv | a2/txn/lock_manager.h:50-62 | so it does after a release, which appends to the ready queue, once each, exactly the others that waited before and wait for nothing now |
| LockTable.WaitsIff | a2/txn/lock_manager.h:104-112 | a transaction has an entry in `txn_waits_` exactly when its first request for some lock is outside the granted prefix, or it has asked for one twice |
| LockTable.OwnersHold | a2/txn/lock_manager.h:64-67 | the owners are exactly the transactions that hold the lock, in request order and, where second requests are exclusive, once each |
| LockTable.ModeOfHolders | a2/txn/lock_manager.h:64-67 | a lock is unlocked exactly if nobody holds it, exclusive exactly if some holder holds it exclusively, shared exactly if some holder shares it; every granted request has its mode |
| LockTable.ReleaseOrder | a2/txn/lock_manager_test.cc:174-185 | a release makes transactions ready in the order in which they asked for the lock |
| LockCalls.LegalCallsKeepInv | a2/txn/lock_manager.h:38-39 | after any calls that never ask twice for one key, releases of holders and waiters alike, every entry of `txn_waits_` is the number of keys waited for |
| LockCalls.HoldersCompatible | a2/txn/lock_manager.h:70-78 | two transactions hold a lock together only when both asked to share it |
| LockManager.LockManager.A | a2/txn/lock_manager.cc:7 | an empty table for exclusive locks only, over the caller's ready queue |
| LockManager.LockManager.B | a2/txn/lock_manager.cc:36 | an empty table for shared and exclusive locks, over the caller's ready queue |
| LockManager.LockManager.WriteLock | a2/txn/lock_manager.h:42-48 | the request is enqueued, counted as a wait unless granted, and the result says whether the last request of the queue is granted |
| LockManager.LockManager.ReadLock | a2/txn/lock_manager.h:34-40 | the same for a shared request, or an exclusive one in a `LockManagerA` |
| LockManager.LockManager.Release | a2/txn/lock_manager.h:50-62 | the lock state becomes the one whose effect the lemmas above state |
| LockManager.LockManager.Status | a2/txn/lock_manager.h:64-67 | `owners`, whatever it held, becomes the transactions that hold the lock, in request order; the mode is unlocked exactly if there are none, and else that of every granted request |
| LockSequences.RequestKeysEffect | a2/txn/txn_processor.cc:158-174 | asking for a whole key set appends one request to each key's queue; the transaction waits exactly if one was refused |
| LockSequences.ReleaseKeysEffect | a2/txn/txn_processor.cc:203-212 | releasing a whole key set takes the transaction out of those queues and makes ready exactly those that stop waiting |
| Transactions.BufferedRefinesDirect | a2/txn/txn_processor.cc:232-267 | for every program, prefetching, running on buffers and applying the writes gives the vote, the death, the reads and the store of running straight on the store; an abort changes nothing |
| Transactions.WritesDeclaredFrom | a2/txn/txn.cc:25-39 | only keys of the write set are ever written |
| Transactions.SerialStoreUnchanged | a2/txn/txn_processor.cc:116-147 | a key keeps its value over transactions that do not declare to write it |
| Transactions.SerialIsDirect | a2/txn/txn_processor.cc:116-147 | the serial scheduler leaves the store of running the requests one by one straight on it, each keeping its writes exactly if it votes to commit |
| TxnProcessor.Txn.Read | a2/txn/txn.cc:4-23 | dies exactly on undeclared keys; finds nothing after the vote or on an absent key |
| TxnProcessor.Txn.Write | a2/txn/txn.cc:25-39 | dies exactly outside the write set; has no effect after the vote; else the key is in both buffers |
| TxnProcessor.Txn.CheckReadWriteSets | a2/txn/txn.cc:41-50 | dies exactly when some key is in both sets |
| TxnProcessor.Txn.Run | a2/txn/txn_types.h:133-160 | running a program through `Read` and `Write` leaves what buffered execution computes |
| TxnProcessor.ExecuteTxn | a2/txn/txn_processor.cc:232-258 | prefetching read set and write set and running the program leaves what buffered execution on the stored values computes |
| TxnProcessor.ApplyWrites | a2/txn/txn_processor.cc:260-267 | the store is overridden by exactly the buffered writes |
| TxnProcessor.Complete | a2/txn/txn_processor.cc:127-141 | committed exactly after a commit vote, which applies the writes, aborted exactly after an abort vote, and dies exactly if there is neither |
| TxnProcessor.SettledByVote | a2/txn/txn_processor.cc:127-141 | a transaction settled serially is committed, or aborted, exactly if its program, run straight on the store of its turn, votes to commit, or to abort |
| TxnProcessor.TxnProcessor.constructor | a2/txn/txn_processor.cc:16-50 | a processor with empty queues and the lock manager of its mode, which shares the ready queue |
| TxnProcessor.TxnProcessor.NewTxnRequest | a2/txn/txn_processor.cc:69-78 | the transaction, new or requested before, gets the next number and the last place in the queue; each transaction's number is that of its latest request |
| TxnProcessor.TxnProcessor.RunSerialScheduler | a2/txn/txn_processor.cc:116-147 | every request is returned in order with the serial outcome, committed or aborted exactly as it votes straight on the store of its turn; the store is the serial and the direct one, or the process dies on the first fatal one |
| TxnProcessor.TxnProcessor.Admit | a2/txn/txn_processor.cc:155-182 | the oldest request asks for all its locks and becomes ready exactly if none was refused |
| TxnProcessor.TxnProcessor.FinishCompleted | a2/txn/txn_processor.cc:185-216 | commits the oldest completed transaction exactly after a commit vote and aborts it exactly after an abort vote, then gives back all its locks, then returns it |
| TxnProcessor.TxnProcessor.DispatchAll | a2/txn/txn_processor.cc:220-228 | empties the ready queue, oldest first |
| LockingStarvation.SecondLockRefused | a2/txn/txn_processor.cc:157-174 | whatever the lock table, on a key in both sets the exclusive request comes right behind the transaction's own first one and is not granted |
| LockingStarvation.OverlapBlocks | a2/txn/txn_processor.cc:157-181 | so such a transaction is not made ready on admission, and has an entry in `txn_waits_` |
| LockingStarvation.StarvedNeverRuns | a2/txn/txn_processor.cc:149-258 | in every run a transaction with a key in both sets, or that conflicts with an earlier one that starves, is never ready, dispatched or returned |
| LockingStarvation.NotBehindStarved | a2/txn/txn_processor.cc:155-228 | one that does not starve is not blocked once all earlier unfinished ones starve |
| LockingStarvation.ValidDoNotStarve | a2/txn/txn.cc:41-50 | among requests with disjoint sets nobody starves |
| LockingStarvation.AloneGetsAllIff | a2/txn/txn.cc:41-50 | with nobody else about, a transaction gets all its locks at once exactly when its sets are disjoint |
| LockingStarvation.RunsIff | a2/txn/txn.cc:41-50 | some run dispatches a request exactly if its sets are disjoint |
| LockingTheorems.StepKeepsInv | a2/txn/txn_processor.cc:149-258 | every step of clients, scheduler and workers keeps: queues hold the live transactions in request order, stages match queues, and the store holds at each key the serial value after the finished writers, which are a prefix |
| LockingTheorems.SerialEquivalence | a2/txn/txn_processor.cc:149-267 | in every interleaving, of arbitrary requests, a finished transaction has read, written and voted what it does in the serial run of the same order, and when all are finished the store is the serial one |
| LockingTheorems.StatusIsVote | a2/txn/txn_processor.cc:185-201 | in every interleaving a finished transaction is committed, or aborted, exactly if its program, run straight on the store of its turn, votes to commit, or to abort; it has read what that run reads, and the final store is that of those runs |
| LockingTheorems.DiesOnlySerially | a2/txn/txn_processor.cc:197-201 | the process dies only if the serial scheduler dies on one of the requests |
| LockingTheorems.DiesIff | a2/txn/txn_processor.cc:197-201 | a run in which all are finished or the process has died has died exactly if some request is fatal serially |
| LockingTheorems.DiesWhere | a2/txn/txn_processor.cc:185-201 | in every interleaving a worker dies exactly on a program that accesses an undeclared key, the scheduler exactly on taking one that left without a vote, and no other step dies |
| LockingTheorems.StrictTwoPhase | a2/txn/txn_processor.cc:185-228 | two transactions that conflict are never both between dispatch and release, and each one there holds all its locks |
| LockingTheorems.ReturnedOnce | a2/txn/txn_processor.cc:203-215 | the returned transactions are exactly the finished ones, each returned once, committed or aborted |
| LockingInvariant.OldestHoldsAll | a2/txn/txn_processor.cc:155-182 | an admitted transaction with disjoint sets and no unfinished one before it is not blocked |
| LockingInvariant.SharersDoNotBlock | a2/txn/txn_processor.cc:155-182 | nor is one that every earlier unfinished one may share its keys with |
| LockingProgress.OldestRuns | a2/txn/txn_processor.cc:155-228 | the oldest transaction that is unfinished and does not starve holds all its locks or is still to be admitted |
| LockingProgress.NeverStuck | a2/txn/txn_processor.cc:149-230 | in every reachable state with a request unfinished that does not starve a worker can step, or the scheduler left alone does some work within three steps |
| LockingProgress.WorkIsBounded | a2/txn/txn_processor.cc:149-258 | from any state of a run, what is done, idle scheduler rounds aside, and what is left to do is no more than what was left and what new requests bring in |
| LockingProgress.RunsAreBounded | a2/txn/txn_processor.cc:149-258 | so from the start: five steps a request, one more for each declared key and each declared write, and one for a process that dies |
| LockingProgress.CanComplete | a2/txn/txn_processor.cc:149-258 | from every reachable state the threads can go on, without new requests and within three steps for each unit of work left, until exactly the transactions that do not starve are finished, or the process has died |
| LockingReady.ReadyOnce | a2/txn/txn_processor.cc:176-181 | a transaction enters the ready queue at most once in a run, by the scheduler or by a release, and exactly once if it is dispatched |
| LockingReady.ReadyHoldsAll | a2/txn/lock_manager.h:104-107 | while it is on the ready queue it holds all its locks |
| LockingReady.LoopsRunDry | a2/txn/txn_processor.cc:153-228 | each of the scheduler's two draining loops ends on an empty queue, and a round admits one request |
| LockingReady.QueuesInOrder | a2/txn/txn_processor.cc:153-228 | requests, completed and ready transactions are taken oldest first, and completions and results are appended |
| LockingReady.ReadyBeforeAdmit | a2/txn/txn_processor.cc:219-228 | in every run, when a request is admitted no transaction is ready and undispatched |
| TxnTypes.NoopDoesNothing | a2/txn/txn_types.h:12-17 | `Noop` commits on every store and changes nothing |
| TxnTypes.PutInserts | a2/txn/txn_types.h:59-79 | `Put` commits on every store and leaves each of its keys with its value |
| TxnTypes.ExpectChecks | a2/txn/txn_types.h:25-53 | `Expect` commits exactly when the store holds every pair, else aborts, and changes nothing |
| TxnTypes.RMWIncrements | a2/txn/txn_types.h:133-160 | `RMW` commits on every store; a key of its write set goes from v to v + 1, mod 2^64, or from absent to 1, and other keys stay |
| TxnTypes.RunCounts | a2/txn/txn_types.h:133-160 | after every finished run of RMW transactions under the locking scheduler a key that had v holds v plus the number of its writers, mod 2^64, and an absent one that number, or is still absent if there are none |
| Bytes.LittleEndian | a1/src/request.cc:64-65 | a word in memory has its least significant byte first |
| Records.FieldBytes | a1/include/database.h:4-5 | a record has 1000 bytes and ten fields, field f is the word at bytes 100 f to 100 f + 7, and a store changes those bytes only |
| Records.LoadStore | a1/src/request.cc:64-65 | a field store changes that field, no other field, and no byte outside the fields |
| Records.SortElements | a1/src/request.cc:93 | sorting distinct keys keeps each of them and makes them increase |
| Records.SortAgain | a1/src/start.cc:162-163 | sorting a second time, when the request is run again, changes nothing |
| Records.SequentialAdds | a1/src/request.cc:69-88 | run one after the other, requests leave every field with its first value plus their updates, mod 2^64, and other bytes alone |
| OrderedLocking.StepKeepsInv | a1/src/request.cc:56-100 | every step, a lock, a field load, a field store or an unlock, keeps: owners are those that hold, fields hold what has been added, what has been loaded is still there |
| OrderedLocking.ConcurrentIsSequential | a1/src/request.cc:56-100 | whatever the schedule of loads and stores, the finished requests leave the database of the sequential run, byte for byte, and all mutexes free |
| OrderedLocking.MutualExclusion | a1/src/database.cc:146-162 | two requests never have the same record locked |
| OrderedLocking.DeadlockFree | a1/src/request.cc:90-95 | in every reachable state with an unfinished request some request can step |
| OrderedLocking.Terminates | a1/src/request.cc:69-100 | every schedule has at most 22 steps for each lock taken, and as many exactly when all requests have finished |
| RequestObjects.Database.LockRecord | a1/src/database.cc:151-155 | takes that record's mutex and no other, or has to wait exactly if it is taken |
| RequestObjects.Database.UnlockRecord | a1/src/database.cc:158-162 | frees that record's mutex and no other |
| RequestObjects.Request.DoWrite | a1/src/request.cc:56-67 | one record gets the updates added field by field, others are as they were |
| RequestObjects.Request.LockRecords | a1/src/request.cc:90-95 | the write set is sorted in place and its records are locked in that order, up to the first whose mutex is taken, for which it waits |
| RequestObjects.Request.Txn | a1/src/request.cc:76-88 | the records of the write set are updated in its order |
| RequestObjects.Request.UnlockRecords | a1/src/request.cc:97-100 | exactly the records of the write set become free |
| RequestObjects.Request.Execute | a1/src/request.cc:69-74 | it waits exactly if a mutex of its write set is taken, before it touches any record; else it does what `Records.Execute` says and gives its mutexes back |
| CopyRequest.RoundUpIsLeast | a1/src/request.cc:6 | `ROUNDUP(n, v)` is the least multiple of v not below n |
| CopyRequest.CopySizeExact | a1/src/request.cc:17-26 | the measured size is the size of the copy exactly when the sum of writes and fields fits 32 bits |
| CopyRequest.CopySizeWraps | a1/src/request.cc:17-26 | the largest write set: 104 bytes are measured, 32 gigabytes copied |
| CopyRequest.SizeCheck | a1/src/process_pool_launcher.cc:201 | the size check lets through exactly up to 114 writes, and those whose size wraps around |
| CopyRequest.CopyRoundTrip | a1/src/request.cc:28-54 | read back, the copy is a request with the same database, write set and updates, laid out without gaps |
| CopyRequest.CopyLayout | a1/src/request.cc:28-54 | byte by byte: the first 16 are the original's, then the addresses of byte 32 and of the end of the write set, then the bytes of the write set and the 80 of the updates |
| CopyRequest.CopiedFrame | a1/src/request.cc:28-54 | no byte outside header, write set and updates of the copy is written |
| CopyRequest.CopyAligned | a1/src/request.cc:41-51 | the copied request's two pointers are aligned exactly if the buffer is |
| CopyRequest.OtherRequestKept | a1/src/request.cc:28-54 | a request outside the buffer, the original included, says what it said |
| CopyRequest.SlotsNeverInterfere | a1/src/process_pool_launcher.cc:86 | a copy that passes the size check without wrap-around stays within its slot and leaves the requests in other slots alone |
| CopyRequest.MemCopy | a1/src/request.cc:38 | `memcpy` on ranges that do not overlap |
| CopyRequest.CopyRequest | a1/src/request.cc:28-54 | in place, the copy leaves the memory the lemmas above are about |
| LauncherPermits.PermitAccounting | a1/src/process_launcher.cc:124-136 | permits and requests in flight add up to the limit, and one more while the launcher waits for a permit; the limit is kept exactly when it has one or finds one |
| LauncherPermits.OneOverTheLimit | a1/src/process_launcher.cc:91-136 | with either launcher and every limit, a run with one request more in flight |
| LauncherPermits.CounterFits | a1/src/process_launcher.cc:14 | under the constructor's check the permit counter never exceeds an int |
| LauncherPermits.NoLostWakeup | a1/src/thread_launcher.cc:57-63 | a launcher asleep beside a permit is about to be signalled, and wakes by it |
| LauncherPermits.WaitMeansDone | a1/src/launcher.cc:35-44 | `WaitOutstanding` returns only when every request has been executed and counted; between threads all permits are then back |
| LauncherPermits.ProcessPermitOut | a1/src/process_launcher.cc:101-112 | between processes, for every limit the constructor accepts, it may return with a permit still out |
| LauncherPermits.PermitsBackWhen | a1/src/process_launcher.cc:101-112 | when it returns, all permits are back exactly if every worker has given its own back |
| LauncherPermits.PermitsBackIff | a1/src/thread_launcher.cc:132-138 | all permits are back whenever it returns exactly for launchers of threads, and for the limit 0 that the process launcher refuses |
| LauncherArgs.ArgsPartition | a1/src/thread_launcher.cc:75-86 | in every interleaving the shared list and the detached list are acyclic, share nothing, and hold exactly the arguments linked and not yet freed |
| LauncherArgs.NoUseAfterFree | a1/src/thread_launcher.cc:79-138 | no executor that has not exited, and no step of the reaping loop, finds its argument freed; so none is joined or freed twice |
| LauncherReaping.CallReaps | a1/src/thread_launcher.cc:75-86 | every argument linked while a call has still to take the list, as each has from its start on, is joined and freed when a call returns, in every continuation |
| LauncherReaping.CallReapsExactly | a1/src/thread_launcher.cc:75-86 | when the call that is taking the list returns, the freed arguments are exactly those linked before it took the list |
| LauncherReaping.ListedAreReaped | a1/src/thread_launcher.cc:75-86 | every argument that following the links from the head visits when the list is taken is freed when a call returns |
| LauncherProgress.NeverStuck | a1/src/thread_launcher.cc:28-140 | unless all calls have returned and all workers exited, some thread can step |
| LauncherProgress.RunsAreBounded | a1/src/thread_launcher.cc:28-140 | a run has at most 26 steps for each `ExecuteRequest`, one for each `WaitOutstanding`, two for each spurious wake-up |
| LauncherProgress.CallsReturn | a1/src/thread_launcher.cc:28-140 | from every reachable state the threads can go on by themselves, within the work left, until the call has returned and all workers have exited |
| LauncherProgress.SpuriousWakeUp | a1/src/thread_launcher.cc:57-63 | a launcher that wakes up for no reason sleeps again with nothing changed if there is no permit, and else takes one |
| ThreadArgs.ArgList.Link | a1/src/thread_launcher.cc:122-125 | the finished argument becomes the first of the list, whose others keep their order |
| ThreadArgs.ArgList.Detach | a1/src/thread_launcher.cc:75-78 | the launcher gets the whole list and leaves an empty one |
| ThreadArgs.Reap | a1/src/thread_launcher.cc:79-86 | every argument of the detached list is joined and freed, once, in list order |
| ThreadPool.AtomicQueue.Push | a2/utils/atomic.h:172-177 | appends |
| ThreadPool.AtomicQueue.Pop | a2/utils/atomic.h:182-197 | takes the first element, or fails exactly on an empty queue and changes nothing |
| ThreadPool.AtomicQueue.PushNonBlocking | a2/utils/atomic.h:201-213 | appends exactly if it acquires the mutex |
| ThreadPool.AtomicQueue.PopNonBlocking | a2/utils/atomic.h:217-238 | takes the first element exactly if it acquires the mutex and there is one |
| ThreadPool.TasksConserved | a2/utils/static_thread_pool.h:78-112 | at any moment what was pushed on a queue is, in that order, what its worker has run, is running, and has queued |
| ThreadPool.AddsArePushed | a2/utils/static_thread_pool.h:32-46 | tasks added are, as multisets, tasks pushed and tasks of calls still trying |
| ThreadPool.BusyRunsEnd | a2/utils/static_thread_pool.h:85-98 | while the pool is not stopped and nothing new is added, every run without failed pops has at most as many steps as there is to do, and has that many exactly when all tasks added have been pushed, all pushed been run, in order, and all workers are back at their queues |
| ThreadPool.PoolRunsAll | a2/utils/static_thread_pool.h:85-98 | from every state of a pool with a thread that has not been stopped there is such a run, so every task can be pushed and run |
| ThreadPool.DrainRunsAll | a2/utils/static_thread_pool.h:25-29 | if no `AddTask` is under way at the stop, then when all workers have exited every task added has been run once, each queue's in order |
| ThreadPool.LostAreLate | a2/utils/static_thread_pool.h:100-109 | in general all tasks of a queue have been run exactly if none was pushed after its worker exited, and those pushed then are the ones lost |
| ThreadPool.WorkersExit | a2/utils/static_thread_pool.h:25-29 | after the stop every run comes to an end, failed TryLocks included, and can go on until all workers have exited and all tasks being added have been pushed, so the destructor returns |
| ThreadPool.StopSafeIff | a2/utils/static_thread_pool.h:25-46 | whatever the threads and the run so far, if the pool is stopped now, no continuation leaves a task in a queue whose worker has gone exactly if no `AddTask` is under way |
| ThreadPool.TaskLost | a2/utils/static_thread_pool.h:40-46 | a run in which an `AddTask` under way at the stop loses its task |
| MvccVersions.FirstIsGreatest | a2/txn/mvcc_storage.cc:44-45 | in a decreasing list the first version at or below the timestamp is the greatest such one |
| MvccVersions.CheckedWriteKeepsIntervals | a2/txn/mvcc_storage.cc:56-60 | check-then-write puts no version strictly between another's id and its last reader's |
| MvccVersions.ReadKeepsIntervals | a2/txn/mvcc_storage.h:8-13 | nor does a read's mark reach over a later version |
| MvccVersions.WriteUnseen | a2/txn/mvcc_storage.cc:56-60 | a write that passes the check changes nothing that a reader with another id has seen |
| MvccScheduler.MultiversionSerializable | assignment2.md:232-262 | with check and write in one step, in every interleaving and with restarts under fresh ids, committed transactions and those that abort have read and done what a serial run of the committed ones in id order gives them, commit and abort being their votes there, and the newest versions are its store |
| MvccChecks.PassesIff | a2/txn/mvcc_storage.cc:51-64 | in terms of transactions alone: a key passes the check exactly if each younger attempt that has read it found a write committed by an attempt in between |
| MvccChecks.CommitsIff | assignment2.md:242-249 | in every run an attempt that checks commits exactly if no younger one has read past it on a key of its write set, and else fails |
| MvccChecks.YoungestCommits | assignment2.md:242-249 | so the youngest attempt always commits |
| MvccLocking.StepRefines | assignment2.md:241-255 | with mutexes taken, checked, written and released key by key and the fresh id drawn afterwards, every step is the step of `MvccScheduler` that it means, or none |
| MvccLocking.RunsRefine | assignment2.md:232-262 | so every run with the mutexes is a run in which check and write are one step |
| MvccLocking.SerializableWithMutexes | assignment2.md:232-262 | committed transactions and those that abort have read and done what a serial run of the committed ones in id order gives them, commit and abort being their votes there; while no mutex is held the newest versions are its store |
| MvccLocking.NoDeadlock | a2/txn/mvcc_storage.cc:34-37 | with write sets gone through in increasing order, as `std::set` does, some worker can step while an attempt is unfinished |
| MvccCompletion.RefusedIff | assignment2.md:241-249 | with mutexes, and other attempts in their sections, the check of a key fails exactly if some younger attempt has read past the writer on it |
| MvccCompletion.CanComplete | assignment2.md:232-262 | with ordered write sets, from every reachable state the workers can go on, restarting each attempt at most once, until every request is committed or aborted by its own vote and all mutexes are free, or the process has died |
| MvccCompletion.CanServe | assignment2.md:232-262 | so a request made at any time can be brought to its end |
| MvccProgress.StepsAreBounded | assignment2.md:232-262 | a run has no more worker steps than its requests and its restarts bring in, so only restarts can go on for ever |
| MvccStorage.MVCCStorage.InitStorage | a2/txn/mvcc_storage.cc:6-14 | each key gets one version, 0 at id 0 |
| MvccStorage.MVCCStorage.Read | a2/txn/mvcc_storage.cc:39-48 | returns the version the id may see and marks it as read |
| MvccStorage.MVCCStorage.CheckWrite | a2/txn/mvcc_storage.cc:51-64 | fails exactly if a later transaction has read the version the write would follow |
| MvccStorage.MVCCStorage.Write | a2/txn/mvcc_storage.cc:67-77 | puts the new version in its place |

## Left out

- The bodies of `LockManagerA` and `LockManagerB` are placeholders in the source. Those here are
  written to the header's contract and the lock manager's tests.
- The bodies of `MVCCStorage` and the MVCC scheduler are placeholders too. The `Mvcc` modules
  are a model of the written contract: comments, version fields and pseudocode.
- MvccScheduler.MultiversionSerializable: check and write are one step, which MvccLocking takes apart.
- MvccLocking.SerializableWithMutexes: keys must be in the initial storage, since only those have a
  mutex. Read set and write set may overlap.
- MvccCompletion.CanComplete: some schedule completes everything. That every fair one does is not claimed;
  by `StepsAreBounded` a run that does not end restarts without end.
- `ThreadPoolLauncher` and `ProcessPoolLauncher`: their synchronisation is unwritten in the source.
  Only the request buffers and the size check are modelled.
- `RunOCCScheduler` and `RunOCCParallelScheduler`: they call the serial scheduler.
- Storage timestamps, `occ_start_time_`, back-off, busy loops, CPU affinity, benchmarks: timing only.
- Shutdown through `stopped_` in `TxnProcessor`, and the destructors of the launchers. The thread
  pool's drain is modelled.
- Mutexes, condition variables, `fork`, thread creation and join, and accesses to the storage's hash
  map are single steps; data races inside the hash map are outside the model.
- The pool between scheduler and workers: in the step system a dispatched transaction may start at
  once. `ThreadPool` proves separately that tasks are neither lost nor repeated.
- TxnProcessor.TxnProcessor.RunSerialScheduler: runs until the queue is empty, for which the source's
  loop, which ends only at shutdown, is cut off there.
- The locking scheduler's outer loop and the launchers' two entry points are step systems rather
  than methods, because other threads act between any two of their statements; the pieces that run
  undisturbed are methods.
- OrderedLocking.ConcurrentIsSequential: write sets have distinct keys of existing records, as
  `a1/src/start.cc:43-66` generates them, and each request object is issued once. Two simultaneous
  runs of one request would sort the same array at the same time.
- Records.SortElements: `std::sort` is taken to be the sorting function; how it sorts is not modelled.
- Integer overflow of `next_unique_id_`, `_num_requests` and `*txns_executed_`: ids and counters are
  taken to stay in range. Values, fields and keys wrap around at 2^64.
- The layout of `Request` (32 bytes, pointers of 8 bytes, little-endian words) is that of 64-bit Linux.
- `AtomicMap`, `AtomicSet`, `Atomic`, `CopyTxnInternals`, random generation of requests, command
  lines and result files: easy members or input and output.
