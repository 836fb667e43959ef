# LNE in Dafny

LNE is a small event-driven networking runtime in C++: a thread pool, a reactor that dispatches
epoll, kqueue or completion-port events, connections ("sprays") with non-blocking send and receive
sections, reference-counted data blocks from a pool, recycled connection objects, and a proxy built on
top. Below the system calls it consists of hand-written lock protocols and pointer structures. This
project models those and proves what they keep.

There are two kinds of modules.

* **Protocols** are transition systems with one step per critical section or kernel call, any number of
  threads and any interleaving. `ThreadPoolProtocol`, `ReceiveProtocol`, `SendProtocol`, `PoolProtocol`,
  `IocpProtocol` and `ProxyPairs` define `Enabled` and `Do` for a step, `Legal` and `After` for a run, and
  an inductive invariant. Main theorems speak of every `Reachable` state or every legal run. The operating
  system is the environment's choice among the answers it may give.
* **Objects** are classes with the source's fields, whose methods are the source's functions run without
  interruption: `ThreadPools`, `SockSprays`, `DataBlockPools`, `ObjectLists`, `SockReactors`,
  `SockEventers`, `TimeValues`. Each method is proved to compute a specification function of the old state
  (often the very function a protocol step uses), and the properties are proved of those functions.

`Counting` has sums over the threads of a state, `Sections` the hand-off flags of the send and receive
sections, `Rings` linked circles, `Streams` bytes.

| file | models |
|---|---|
| ThreadPoolProtocol.dfy, ThreadPool.dfy | task queue, growth rule, worker loop, coalescing condition, exit cascade |
| ReceiveProtocol.dfy | edge-triggered receive section |
| SendProtocol.dfy, SockSpray.dfy | send section, chunked and partial sends, deferred shutdown, recycling of a connection |
| IocpProtocol.dfy | outstanding operations on the completion port |
| PoolProtocol.dfy, DataBlockPool.dfy | block pool, spare nodes, reference counts, carving |
| SockReactor.dfy | ring of connections and idle sweep |
| ObjectList.dfy, Rings.dfy | deque over a ring with a node free list |
| SockEventer.dfy, ProxyPair.dfy | recycled connections and the two-party references of the proxy |
| TimeValue.dfy | time normalisation, comparison, deadlines |

## Assumptions

* Mutexes and condition variables work; their calls do not fail. A signal wakes one waiter; an operating
  system that wakes more is covered by the `Spurious` steps. The POSIX form of the condition is modelled.
* `exit_request_` is read and written in one global order. Tasks are not posted while the pool is being
  destroyed.
* `LNE_UINT` is 32 bits wide; the pool's counters wrap explicitly, and it is proved that they never do.
  The reference counts are unbounded. `time_t` and `suseconds_t` sums are assumed to fit.
* The bytes of a block do not change after `Send`, and blocks given to `Send` are not empty
  (lne/SockSpray.cpp:149 asserts it for the single form; the array form does not check).
* Teardown is one step where it is used: `LeaveThreadSafe` tests its two conditions in separate sections
  (lne/SockSpray.cpp:515-541), and no event is handled for a connection whose teardown has begun.
* Bind succeeds.

## Where the code differs from what one would expect

* `nodes_count_` is never updated (lne/ObjectList_T.h:67, lne/ObjectList_T.h:197), so `count()` is 0 and
  `IsEmpty()` true for every list. The limits built on it (lne/SockSpray.cpp:164, lne/SockEventer.cpp:75)
  never apply and do not occur in the model.
* A queued block can be left behind on the send side. `StrandsExactly` says which two steps do it,
  `BlockCanBeStranded` gives the run, and `RestMeansSent` what holds for runs without such a step. The next
  write event or accepted Send sends the block if the kernel takes it: `NextCallSends`.
* An array Send that runs out of memory returns without draining what it has appended. The queue has 128 nodes
  of its own, so this takes a long queue; `CutSendCanStrand` is the run. The query it sets is not forgotten:
  `RestMeansClosed`.
* A Shutdown that waits for unsent bytes can be cut short by the connection's own reader: `ReaderCutsExactly`
  says when.
* Shutdown means to test that the queue is empty, but `IsEmpty()` is constant, and a Send past its own test may
  append afterwards. `LookIsCleanExactly` and `CheckIsCleanExactly` say exactly when the two closes are certain
  to be clean; `ShutdownCanCutABlock` is a run where one is not. Between calls that do not overlap the close is
  clean all the same: `CloseIsClean`, `LifeClosesClean`.
* A Bind moves a due member back by one place: the idle bound counts Binds (`IdleBound`), sharply
  (`IdleBoundTight`), and a Bind before each sweep can delay a due member for ever (`BindsStarve`).
* Negative totals have two normal forms, so comparing and subtracting them is not exact:
  `NegativeTotalsDiffer`, `FaithfulExactly`, `RestoredExactly`.
* Nothing keeps the write structure of the completion port from being posted twice: `WritePostedTwice`.
  `WritePostsExactly` says how many operations can be outstanding, while there is something to send and when
  there is not, `SendDoublesExactly` which Sends make a second one possible, `SpacedSendsPostOnce` which runs
  are safe.
* `UnBind` of the only member leaves its links set (lne/SockReactor.cpp:157-161); the constructor of
  SockEventer leaves the context unset (lne/SockEventer.cpp:23-28).

## Model

| member | source | states |
|---|---|---|
| ThreadPoolProtocol.WorkerCounters | lne/ThreadPool.cpp:115-181 | in every reachable state num_tasks_ is the queue length, run_thread_ the number of workers between dequeue and decrement, run_thread_ <= num_thread_ <= limit_thread_; no unsigned subtraction wraps |
| ThreadPoolProtocol.FifoOrder | lne/ThreadPool.cpp:118-125 | in every reachable state the tasks dequeued are a prefix of the tasks posted and the queue holds exactly the rest |
| ThreadPoolProtocol.GrowthExactly | lne/ThreadPool.cpp:126-137 | PostTask adds a worker if and only if the system creates it, the limit allows one, and the queue with the new task is longer than there are workers not busy |
| ThreadPoolProtocol.EnoughWorkers | lne/ThreadPool.cpp:126-137 | over every run in which threads can be created, each queued task has an idle worker to come or the pool is at its limit |
| ThreadPoolProtocol.NoStrandedTask | lne/ThreadCondition.h:49-89 | before exit, queued work with no poster before its Signal means that a worker is woken or draining, or that signal_ is set and nobody is blocked; that worker has an enabled step |
| ThreadPoolProtocol.RunStepDown | lne/ThreadPool.cpp:157-183 | every step the pool takes by itself before exit decreases a measure |
| ThreadPoolProtocol.RunsBounded | lne/ThreadPool.cpp:157-183 | a run without posts and spurious wake-ups is no longer than that measure |
| ThreadPoolProtocol.RestMeansServiced | lne/ThreadPool.cpp:157-183 | where the pool comes to rest the queue is empty, all workers are blocked and every posted task was serviced exactly as often as it was posted |
| ThreadPoolProtocol.NeverBoth | lne/ThreadPool.cpp:176-201 | a task posted once never gets both Service and Discard, nor one of them twice |
| ThreadPoolProtocol.ExitStepDown | lne/ThreadPool.cpp:68-79 | once exit is requested every step, even a spurious wake-up, decreases a measure over phases and tasks |
| ThreadPoolProtocol.ExitNeverStuck | lne/ThreadPool.cpp:183-201 | until the destructor is through some step other than a spurious wake-up is enabled, however signals were coalesced |
| ThreadPoolProtocol.ExitRunsBounded | lne/ThreadPool.cpp:68-87 | every schedule after the exit request is no longer than the measure |
| ThreadPoolProtocol.ExitServesFew | lne/ThreadPool.cpp:161-183 | after the exit request no more tasks are serviced than there are workers already past their test of exit_request_ |
| ThreadPoolProtocol.DestructorReturns | lne/ThreadPool.cpp:68-87 | every schedule that cannot be continued has finished all workers and the destructor, with posted == serviced + discarded as multisets |
| ThreadPoolProtocol.SweepFindsNothing | lne/ThreadPool.cpp:80-84 | the destructor's own sweep never finds a task |
| ThreadPoolProtocol.StepKeepsInv | lne/ThreadPool.cpp:115-202 | every step keeps counters, wake-ups, FIFO, ledger and exit cascade |
| ThreadPools.InitialThreads | lne/ThreadPool.cpp:89-97 | at least one and at most limit workers, a fifth of the limit rounded down |
| ThreadPools.ThreadPool.Append | lne/ThreadPool.cpp:118-137 | linking a task at the rear is `Appended` on the list's contents and keeps the list well formed |
| ThreadPools.ThreadPool.Take | lne/ThreadPool.cpp:164-175 | unlinking the head is `Taken` on the contents; an empty queue is left alone |
| ThreadPools.ThreadPool.CountDown | lne/ThreadPool.cpp:178-180 | the decrement is `CountedDown` |
| ThreadPools.ThreadPool.CleanUp | lne/ThreadPool.cpp:186-201 | a leaving worker alone discards the whole queue, in order |
| ThreadPools.ThreadPool.Sweep | lne/ThreadPool.cpp:80-84 | the destructor's loop discards what is left, in order |
| ReceiveProtocol.OneReader | lne/SockSpray.cpp:390-401 | never two threads in the receive section |
| ReceiveProtocol.IncomingStream | lne/SockSpray.cpp:406-458 | delivered chunks, the owner's block and the kernel's bytes are the peer's stream in order; chunks are non-empty and within capacity, come pass by pass, and within a pass of the drain all but the last are full |
| ReceiveProtocol.RoomToRead | lne/DataBlock.h:153-167 | recv is never called without room, and what was read before an error or end of file is kept |
| ReceiveProtocol.ReleaseOnlyWhenClear | lne/SockSpray.cpp:464-476 | ownership is given up only with ready clear or when shutting down |
| ReceiveProtocol.NoLostWakeup | lne/SockSpray.cpp:381-477 | before shutdown, unread bytes or an end of file mean an undelivered edge or a thread with an enabled step that will still read or shut down |
| ReceiveProtocol.RunsBounded | lne/SockSpray.cpp:405-477 | left alone by the peer the threads take finitely many steps |
| ReceiveProtocol.RestMeansDelivered | lne/SockSpray.cpp:381-477 | at rest, without a shutdown, every byte that arrived was handed over in order |
| ReceiveProtocol.ClosedExactly | lne/SockSpray.cpp:406-462 | a run at rest has closed the connection if and only if it met end of file, an error, a failed allocation, a query after a full block, or somebody else's close; before rest, only if |
| ReceiveProtocol.ReadsStayOpen | lne/SockSpray.cpp:422-431 | a run without end of file, error, failed allocation, Shutdown or foreign close never closes, whatever would-blocks it meets |
| ReceiveProtocol.NothingMoreRead | lne/SockSpray.cpp:381-390 | once a query or HandleShutdown is set and no reader is past its test, recv is never called again |
| ReceiveProtocol.ReaderCutsExactly | lne/SockSpray.cpp:436-462 | with query set and nothing closed, the receive side can still close the connection if and only if a reader is past its test of the flags and has not ended its last pass |
| ReceiveProtocol.StepKeepsInv | lne/SockSpray.cpp:381-477 | every step keeps ownership, stream, passes, shapes and attention |
| SendProtocol.OneSender | lne/SockSpray.cpp:278-290 | never two threads in the send section |
| SendProtocol.OutgoingStream | lne/SockSpray.cpp:147-367 | bytes taken by the kernel ++ unsent tail of cache_buf ++ queue are the accepted blocks in append order; one reference per queued or cached block; the close is issued at most once |
| SendProtocol.StrandsExactly | lne/SockSpray.cpp:348-366 | a step loses the attention for unsent blocks if and only if it is one of two: giving up after an empty queue that has been refilled, or a Send cut short by memory |
| SendProtocol.RestMeansSent | lne/SockSpray.cpp:268-367 | a run without such a step that has come to rest, unarmed and open, has sent everything and holds no reference |
| SendProtocol.ClosedExactly | lne/SockSpray.cpp:329-354 | a run at rest has closed the connection if and only if a send was refused, an owner found the queue empty with query set, Shutdown found cache_buf empty, or somebody else closed; before rest, only if |
| SendProtocol.SendsStayOpen | lne/SockSpray.cpp:342-343 | a run without refused send, Shutdown, foreign close or Send cut by memory never closes, however often the kernel's buffer is full |
| SendProtocol.QueriedExactly | lne/SockSpray.cpp:157-219 | query is set if and only if a Shutdown came before the final close or a Send ran out of memory |
| SendProtocol.NothingTurnedAway | lne/SockSpray.cpp:147-173 | the accepted blocks are among those Send was called with, and at rest, with neither query nor final close, exactly those, as multisets |
| SendProtocol.OneShutdownPasses | lne/SockSpray.cpp:209-219 | of all threads in Shutdown one at most is past the test of the flags |
| SendProtocol.NothingMoreSent | lne/SockSpray.cpp:268-277 | once HandleShutdown has set its flag and no sender is past its test, send is never called again |
| SendProtocol.BlockCanBeStranded | lne/SockSpray.cpp:358-359 | a run of two Sends that leaves a block in an open, idle connection with no event to come |
| SendProtocol.FullIsLots | lne/ObjectList_T.h:151-186 | a deque that reports NOMEMORY holds a number of items at which the model lets an append fail |
| SendProtocol.RememberedKept | lne/SockSpray.cpp:157-231 | every step keeps: a set query means that somebody will close, or that there is something to drain first |
| SendProtocol.RestMeansClosed | lne/SockSpray.cpp:209-231 | every run that has come to rest with query set has closed or has bytes left to send; without a stranding step, and unarmed, it has closed |
| SendProtocol.CutSendCanStrand | lne/SockSpray.cpp:188-206 | a run of one array Send of more blocks than nodes that leaves the first of them in an open, idle connection with no event to come |
| SendProtocol.LookIsCleanExactly | lne/SockSpray.cpp:219-231 | every continuation of Shutdown's look that ends closed has sent all it accepted, if and only if the queue is empty and no Send is between its test and its append |
| SendProtocol.CheckIsCleanExactly | lne/SockSpray.cpp:348-354 | the same of the close of a drained owner with query set; at that moment everything accepted was sent if and only if the queue is still empty |
| SendProtocol.ShutdownCanCutABlock | lne/SockSpray.cpp:209-231 | a Shutdown inside a Send closes on an accepted, unsent block |
| SendProtocol.CallsReturn | lne/SockSpray.cpp:147-367 | without new calls and events every thread leaves after finitely many steps |
| SendProtocol.StepKeepsInv | lne/SockSpray.cpp:147-367 | every step keeps ownership, stream and references |
| SockSprays.DrainOk | lne/SockSpray.cpp:295-346 | however the kernel answers, a drain conserves the stream and the references; one that runs dry has sent everything |
| SockSprays.StopsExactly | lne/SockSpray.cpp:317-345 | a drain that leaves something unsent stopped at the first answer that let no bytes out, and counts as failed if and only if that is an error other than would-block |
| SockSprays.WillingKernelDrains | lne/SockSpray.cpp:295-346 | a kernel that takes at least a byte each time drains everything accepted |
| SockSprays.CloseIsClean | lne/SockSpray.cpp:209-254 | for calls that do not overlap, a close by Shutdown or by the drained-and-query test comes after every accepted byte was sent |
| SockSprays.NextCallSends | lne/SockSpray.cpp:268-367 | the next write event or accepted Send sends everything accepted so far, whatever was left in the queue, if the kernel takes a byte each time |
| SockSprays.CallSettles | lne/SockSpray.cpp:147-254 | every complete call keeps: empty cache means empty queue, or a query; one close at most |
| SockSprays.LifeClosesClean | lne/SockSpray.cpp:348-354 | over any series of Sends, write events and Shutdowns without a refused send, a connection that ends up closed has sent every accepted byte and holds no reference |
| SockSprays.CallClosesExactly | lne/SockSpray.cpp:209-254 | a call on an open connection closes it if and only if it is somebody else's close, a send is refused, or it leaves a query with nothing to send |
| SockSprays.LifeClosesExactly | lne/SockSpray.cpp:219-229 | after any series of calls before the final close the connection was closed if and only if a send was refused, somebody else closed it, or a query is set and nothing is left to send |
| SockSprays.AcceptsExactly | lne/SockSpray.cpp:147-207 | a Send adds its blocks, or as many as find memory, to what is accepted, unless a query or the final close came before; no other call adds anything |
| SockSprays.NothingAfterDown | lne/SockSpray.cpp:268-277 | after the final close no series of calls sends or accepts anything |
| SockSprays.CallsConserve | lne/SockSpray.cpp:233-254 | after any series of calls the close was issued at most once and the stream is conserved |
| SockSprays.ChopFull | lne/SockSpray.cpp:406-435 | full blocks and a shorter rest are exactly what cutting their bytes at the capacity gives |
| SockSprays.JoinChop | lne/SockSpray.cpp:406-435 | cutting loses nothing |
| SockSprays.ReadsExactly | lne/SockSpray.cpp:405-424 | unless recv fails, a pass of reads takes what fits in the blocks that can be had, however recv cuts it up, and ends in order if and only if that leaves room |
| SockSprays.SockSpray.SendLoop | lne/SockSpray.cpp:295-346 | the do-while loop is the recursive `Drain` |
| SockSprays.SockSpray.HandleWrite | lne/SockSpray.cpp:268-367 | an undisturbed __HandleWrite is `Written` |
| SockSprays.SockSpray.Send | lne/SockSpray.cpp:147-207 | both forms of Send are `Sent`, with the partial append when memory runs out |
| SockSprays.SockSpray.Shutdown | lne/SockSpray.cpp:209-231 | Shutdown is `ShutDown` |
| SockSprays.SockSpray.Clean | lne/SockSpray.cpp:124-145 | every reference held is given back once and every field the constructor sets has the constructor's value |
| SockSprays.SockSpray.Fill | lne/SockSpray.cpp:414-424 | the inner recv loop returns a prefix of the bytes there are: a full block, or all of them, or what was read before recv failed; it is one block's part of `Reading` |
| SockSprays.SockSpray.HandleRead | lne/SockSpray.cpp:381-477 | the blocks handed over are the bytes recv returned, also before an error, cut at the capacity; the connection closes if and only if the pass ends at end of file, error or failed allocation |
| IocpProtocol.OutstandingConserved | lne/SockSpray.cpp:78-86 | iocp_data_.count is operations posted minus completions counted off, through every interleaving; neither it nor thread_count_ is ever decremented at zero |
| IocpProtocol.ChosenExactly | lne/SockSpray.cpp:515-541 | a thread that saw both conditions chooses teardown if and only if no operation is outstanding at that moment |
| IocpProtocol.LastLeaverExactly | lne/SockSpray.cpp:515-521 | a leaving thread finds the connection empty if and only if no other thread is inside at that moment |
| IocpProtocol.BothSeenExactly | lne/SockSpray.cpp:515-525 | whatever others do in between, it has both conditions if and only if it was the last inside when it left and the connection is shut down when it asks |
| IocpProtocol.ClosedExactly | lne/SockSpray.cpp:233-254 | with no thread under way the connection is closed or marked if and only if a drain stopped, an owner found the queue empty with query set, or somebody else closed it |
| IocpProtocol.ClosedIsMarked | lne/SockSpray.cpp:242-249 | a close is followed up: with nothing under way, at the kernel or in a thread, a closed connection counts as shut down |
| IocpProtocol.ReadPostedOnce | lne/SockSpray.cpp:445-453 | the read structure is re-armed only when its operation has completed and nobody else carries it; DisconnectEx is accepted at most once |
| IocpProtocol.WritePostsExactly | lne/SockSpray.cpp:268-367 | from any reachable state, n operations on the write structure can be outstanding at once without a further Send if and only if n is at most the number of tokens (posted operations, threads on their way to post, and an answered `ready`) while anything is left to send, and at most the number already posted when nothing is |
| IocpProtocol.SendDoublesExactly | lne/SockSpray.cpp:157-173 | the append of a Send on an open connection makes two outstanding operations possible if and only if a token was there before |
| IocpProtocol.SpacedSendsPostOnce | lne/SockSpray.cpp:332-339 | a run in which each Send on an open connection starts without tokens never has two outstanding |
| IocpProtocol.WritePostedTwice | lne/SockSpray.cpp:332-339 | a run in which the write structure has two operations outstanding |
| IocpProtocol.StepKeepsInv | lne/SockSpray.cpp:242-249 | every step keeps the conservation laws |
| PoolProtocol.PoolConservation | lne/DataBlock.cpp:115-148 | spare nodes are exactly the blocks out, and pool references are outside holders plus blocks out, up to threads inside the two gaps |
| PoolProtocol.NoNullDereference | lne/DataBlock.cpp:70-83 | Free always finds a spare node and the destructor never meets a null block |
| PoolProtocol.DestroyedOnceUnused | lne/ExtendObject.cpp:28-39 | the pool is destroyed once, exactly when the last reference goes, and nothing can touch it afterwards |
| PoolProtocol.AllocIsFresh | lne/DataBlock.cpp:127-148 | a block handed out was neither out nor dying and has one reference |
| PoolProtocol.OutWhileHeld | lne/ExtendObject.cpp:28-39 | a block is out exactly while somebody holds a reference on it, and its count is their number; a dying or available block has no holder |
| PoolProtocol.LastReleaseExactly | lne/ExtendObject.cpp:28-39 | Release gives a block up if and only if it was the last reference |
| PoolProtocol.StepKeepsInv | lne/DataBlock.cpp:115-148 | every step keeps placement, balance and end |
| DataBlockPools.SlotsApart | lne/DataBlock.cpp:150-168 | for every capacity and count, nodes, headers and payloads of different blocks are pairwise disjoint |
| DataBlockPools.SlotInside | lne/DataBlock.cpp:95-107 | the parts of one block are disjoint, all lie in the allocation, and the last payload ends exactly at the allocated size |
| DataBlockPools.Carve | lne/DataBlock.cpp:150-168 | the walk over the buffer lays out exactly these extents and ends where the memory asked for ends |
| DataBlockPools.DataBlock.SetSize | lne/DataBlock.h:159-167 | a size beyond the capacity is refused and changes nothing |
| DataBlockPools.DataBlockPool.Alloc | lne/DataBlock.cpp:127-148 | the block freed last; from an empty pool, if memory allows, a block of one new allocation, whose others go on the list; null exactly when there is none |
| DataBlockPools.DataBlockPool.AppendCache | lne/DataBlock.cpp:150-168 | an empty list becomes the blocks of one new allocation, which is recorded |
| DataBlockPools.DataBlockPool.Free | lne/DataBlock.cpp:115-125 | the block goes in front of the list on a spare node that is always there |
| DataBlockPools.DataBlockPool.ReleaseBlock | lne/DataBlock.cpp:48-58 | the last reference returns the block empty and with one reference, an earlier one only counts down |
| DataBlockPools.DataBlockPool.Release | lne/ExtendObject.cpp:28-39 | the pool is to be destroyed exactly if nobody holds it any more and no block is out; the last Free says the same of its own reference |
| DataBlockPools.DataBlockPool.Destroy | lne/DataBlock.cpp:70-93 | with no reference left no block is out, and as many different blocks are destroyed as the allocations held; every allocation but the pool's own is freed once |
| SockReactors.SweepRotates | lne/SockReactor.cpp:205-230 | a sweep keeps membership and order, moves the cursor past exactly the inspected members (one at least, each at most once), and calls HandleIdleTimeout exactly for the inspected members that are due |
| SockReactors.InspectedExactly | lne/SockReactor.cpp:212-224 | a sweep goes on to the first member that is not due yet or after which the second is over, or once round: exactly there it ends |
| SockReactors.DueMembersFire | lne/SockReactor.cpp:212-224 | all due members ahead of the first that stops the sweep are timed out in it |
| SockReactors.SweptMember | lne/SockReactor.cpp:205-224 | an inspected member that does not stop the sweep as not yet due is active from the reading after it and checked no more; all others are as they were |
| SockReactors.FiresAtMostOnce | lne/SockSpray.cpp:58-61 | over any run of sweeps, binds, unbinds and activity a connection is timed out at most once per life |
| SockReactors.IdleBound | lne/SockReactor.cpp:205-230 | a due connection at place i that stays silent is timed out before the sweeps outnumber i and the Binds together, over any run of sweeps, binds, unbinds and activity |
| SockReactors.IdleBoundTight | lne/SockReactor.cpp:205-230 | in every ring of two or more and for every number of Binds there is a run with the sleep between sweeps and exactly i sweeps more than Binds that passes it over |
| SockReactors.BindsStarve | lne/SockReactor.cpp:143-147 | with an active cursor and a Bind before each sweep, and the sleep between sweeps, a run of any number of sweeps can miss a due connection |
| SockReactors.SockReactor.Bind | lne/SockReactor.cpp:131-151 | the member becomes the cursor and the ring stays well formed; it will be inspected last, the old cursor first |
| SockReactors.SockReactor.UnBind | lne/SockReactor.cpp:153-173 | the member leaves, the order of the others stays, and the cursor steps back if it was the cursor |
| SockReactors.SockReactor.SweepOnce | lne/SockReactor.cpp:205-230 | the loop over links computes `Swept` and leaves the ring entered at the last inspected member |
| SockReactors.SockReactor.TerminateAll | lne/SockReactor.cpp:90-97 | the destructor's walk visits every member once in ring order, although it and one visited before may be recycled on the way |
| ObjectLists.ObjectList.constructor | lne/ObjectList_T.h:64-74 | an empty list with cache_nodes_ free nodes |
| ObjectLists.ObjectList.PushFront | lne/ObjectList_T.h:108-129 | the item goes to the front, or NOMEMORY, only when all nodes of all lots hold items, and the contents unchanged; the ring stays well formed and ring and free list partition all nodes |
| ObjectLists.ObjectList.PushBack | lne/ObjectList_T.h:151-171 | the same at the back |
| ObjectLists.ObjectList.PopFront | lne/ObjectList_T.h:88-105 | the first item, or NODATA exactly when empty with the caller's variable untouched |
| ObjectLists.ObjectList.PopBack | lne/ObjectList_T.h:132-148 | the same at the back |
| ObjectLists.ObjectList.AddFreeNodes | lne/ObjectList_T.h:174-186 | the free list grows by cache_nodes_ new nodes |
| ObjectLists.ObjectList.Count | lne/ObjectList_T.h:189-198 | count() and IsEmpty() are right exactly for the empty list |
| SockEventers.SockEventerPool.Alloc | lne/SockSpray.cpp:562-580 | the connection recycled last or a new one, in either case as constructed but for socket and handler; the pool counts one more reference |
| SockEventers.SockEventerPool.Recycle | lne/SockEventer.cpp:72-79 | the restored connection goes in front of the cache or is deleted, and the pool's references stay holders plus connections out |
| SockEventers.SockEventerPool.Restore | lne/SockEventer.cpp:30-42 | ObjectDestroy: every block reference the connection holds is given back, and all fields that constructors set, its own and its bases', have their first values |
| SockEventers.SockEventerPool.ReleaseObject | lne/ExtendObject.cpp:28-39 | recycled exactly when the last reference goes |
| SockEventers.SockEventerPool.Release | lne/ExtendObject.cpp:28-39 | the pool is to be destroyed exactly if nobody holds it any more and no connection is out |
| SockEventers.SockEventerPool.Destroy | lne/SockEventer.cpp:65-70 | no connection is out and each cached one is deleted once |
| SockEventers.HandleClient | apps/pproxy/PPSpringHandler.cpp:30-58 | a mutually referenced pair with two references each, or everything allocated is given back |
| SockEventers.TearDown | apps/pproxy/PPSprayHandler.cpp:17-38 | the first teardown of a pair recycles nothing, the second recycles both |
| SockEventers.PairLife | apps/pproxy/PPSpringHandler.cpp:30-58 | set-up and both teardowns in either order leave the pool's references as they were |
| ProxyPairs.PairOwnership | apps/pproxy/PPSpringHandler.cpp:45-50 | in every interleaving a connection's references are (not yet torn down) plus (peer's context, or a teardown that took the pointer, still there) |
| ProxyPairs.NeverTouchesRecycled | apps/pproxy/PPSprayHandler.cpp:11-38 | no step of set-up, forwarding or teardown uses a recycled connection, and HandleData always finds its peer |
| ProxyPairs.PeerStaysWhileForwarding | apps/pproxy/PPSprayHandler.cpp:11-15 | the peer is not recycled for as long as a thread is forwarding to it |
| ProxyPairs.RecycledExactlyOnce | lne/SockSpray.cpp:536-540 | each side is recycled at most once, and exactly once when both are over |
| ProxyPairs.AsksExactly | apps/pproxy/PPSprayHandler.cpp:17-38 | over every run, a teardown begun by a leaving thread asks its peer to shut down before it drops it, one begun by the reactor's destructor drops it without asking, and either drops it before itself |
| ProxyPairs.PairTornDown | lne/SockSpray.cpp:109-114 | once events stop every run is finite, and one that cannot go on has recycled both sides |
| TimeValues.NormalizedExactly | lne/TimeValue.cpp:25-42 | the total is kept, less than a second of microseconds is left, and the result is canonical if and only if the total is not negative or the microseconds were no negative fraction; for such totals it is the unique canonical form |
| TimeValues.NegativeTotalsDiffer | lne/TimeValue.cpp:25-42 | two normal forms of one negative total |
| TimeValues.FaithfulExactly | lne/TimeValue.h:201-259 | a value compares by its total with every canonical value if and only if it is canonical |
| TimeValues.ArithmeticOnTotals | lne/TimeValue.h:183-199 | += and -= are addition and subtraction of totals, canonical when the result is not negative |
| TimeValues.CarryMoved | lne/TimeValue.h:183-190 | how many seconds an addition moves, from its operands |
| TimeValues.RestoredExactly | lne/TimeValue.h:183-199 | exactly when (a += b) -= b gives a back: for totals that are not negative, if and only if a is canonical; for negative ones, if and only if a has less than a second of microseconds and nothing is moved in the direction of their sign |
| TimeValues.MicrosecondsAreTheTotal | lne/TimeValue.h:146-150 | ToMicroseconds is the total modulo 2^64 |
| TimeValues.MillisecondsRoundDownExactly | lne/TimeValue.h:140-144 | ToMillisecond rounds the total down if and only if the microseconds are no negative fraction of a millisecond |
| TimeValues.TimeValue.Normalize | lne/TimeValue.cpp:25-42 | the loops end and compute `Normalized` |
| TimeValues.TimeValue.Add | lne/TimeValue.h:183-190 | += computes `Plus`, also of a value with itself |
| TimeValues.TimeValue.Subtract | lne/TimeValue.h:192-199 | -= computes `Minus` |
| TimeValues.Deadline | lne/ThreadCondition.cpp:60-65 | the nanosecond field is valid if and only if the sum is canonical, in particular for every waiting time that is not negative, when it denotes exactly the sum |

## Left out

- Sockets, epoll, kqueue, completion ports, thread creation and malloc are answers of the environment.
- kqueue's num_eof counting and the Win32 event form of ThreadCondition.
- ThreadCondition's timed Wait beyond the deadline it computes.
- Fine-grained teardown: two threads that leave at the same time; the code tests its conditions in separate sections and does not establish that teardown happens once.
- SendProtocol.RestMeansSent: for runs without a stranding step only, because the code can strand a block (`StrandsExactly`).
- SendProtocol.RestMeansClosed: the close itself for runs without a stranding step only (`StrandsExactly`).
- ReceiveProtocol.ReaderCutsExactly: of the receive side; which further closes the send side may issue is said by SendProtocol.LookIsCleanExactly and SendProtocol.CheckIsCleanExactly.
- SockEventers.HandleClient: Bind's links are not made here; they are SockReactors.SockReactor.Bind.
- SockSprays.LifeClosesClean: for calls that do not overlap, because `ShutdownCanCutABlock`; a refused send and a close by the reader or the idle sweep are not graceful.
- SockSprays.SockSpray.HandleRead: here the handler does not call back; calls to Shutdown from HandleData are the AskShutdown steps of ReceiveProtocol.
- IocpProtocol.ChosenExactly: speaks of the moment of the choice; operations posted by other threads afterwards are not covered.
- Retries after EINTR in the protocols: they change nothing.
- Bind failure, where Clean clears the handler before HandleTerminate uses it.
- SockEventers: the pool is a parameter, not a field, and always given, so the delete of pool-less eventers does not occur; the count limit of the cache never applies. The other classes derived from SockEventer are not modelled.
- Alignment of carved blocks.
- SockAddr, SockAcceptor, SockConnector, SockWaves, SockStream, SockPad, SockSpring, and the thin wrappers ThreadMutex, ThreadSemaphore, ThreadLock, Thread.
- ObjectQueue_T.h and ObjectStack_T.h: delegations to the deque.
- AutoRelease, and printing in the applications.
