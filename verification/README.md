# Verified models of the repository's concurrent and byte-level cores

This project models, in Dafny, the parts of the repository whose correctness is hard to see from the code:
the lock-free containers, the work-stealing queue and pool, the free-list allocator, the two message-framing
pipelines, the elastic thread pool, and a few smaller stateful pieces. Each model follows the branches, edge
cases and constants of the source; the theorems are about all inputs, all schedules and all runs.

| files | source | form |
|---|---|---|
| `atomic_stack.dfy`, `ref_count_stack.dfy`, `stack_uk.dfy`, `ref_count_alone.dfy`, `stack_uk_alone.dfy` | `inc/public/ts_stack.h` | step machines refining an atomic stack; what a thread that runs alone achieves |
| `atomic_queue.dfy`, `lock_free_queue.dfy`, `queue_invariant.dfy`, `queue_steps.dfy`, `queue_runs.dfy`, `lost_push.dfy`, `queue_drops.dfy`, `queue_alone.dfy` | `inc/public/ts_queue.h` | a step machine refining a queue that may drop a push, and when exactly it does |
| `atomic_deque.dfy`, `stealing_queue.dfy`, `stealing_alone.dfy`, `steal_pool.dfy`, `steal_pool_alone.dfy` | `inc/concurrent/threadsafe_queue.h`, `inc/concurrent/steal_threadpool.h` | a step machine with locks refining a deque; a pool over such deques |
| `pieces.dfy`, `free_lists.dfy`, `pool_books.dfy`, `pool_requests.dfy`, `pool_supply.dfy`, `myallocator.dfy` | `inc/public/myallocator.h` | functions on the whole state, and a class that is proved to compute them |
| `chat_wire.dfy`, `chat_session.dfy` | `src/chat_server/csession.cc`, `src/chat_server/msg_node.cc` | the meaning of a byte stream, and classes for both ends |
| `arpc_wire.dfy`, `arpc_header.dfy`, `byte_buffer.dfy`, `arpc_frames.dfy` | `src/arpc/*`, `inc/mmuduo/buffer.h` | printer and parser as functions, and classes for message, buffer and channel |
| `thread_pool.dfy` | `inc/threadpool/thrdp.h` | a state machine of its critical sections |
| `ts_list.dfy` | `inc/public/ts_list.h` | a class over linked nodes |
| `size_class.dfy` | `inc/memory_pool/comm.h` | masks and shifts on 64-bit words, and what they mean |
| `bits.dfy`, `options.dfy` | used by the others | words with their bitwise operators; a value that may be missing |

How to read the concurrent models. `Step(s, t, c)` is one atomic access (a load, a CAS, a fetch_add, one
lock operation) of thread `t`; a schedule is any sequence of threads and choices, so the theorems hold for any
number of threads and any interleaving. `new` may return any address that is not allocated, also one that
was freed, so the ABA problem is inside the model. Touching an address that is not allocated, and freeing one
twice, raises `fault`. The step emits a label when an operation is called, takes effect and returns;
`Replay` accepts exactly the labels of the atomic object, so `Linearizable` says that every run is
linearizable with the stated linearization points. The calls in the labels are those that the schedule asks for
(`CallsAreAsked`), and the laws about a thread that runs alone (`ReturnsAlone`, `PushThenPop` and the like) start from
any reachable state, with the other threads stopped wherever they are.

What the proofs found out about the code:

* `lock_free_queue` can lose a push (`LostPush.PushCanBeLost` is a complete run): a pusher that is stalled in
  front of its data CAS may install its value into a node that has already been popped. A push that returns has
  lost its value if and only if that CAS has filled an empty node that is not the tail
  (`QueueDrops.LostIffLate`, `QueueRuns.EntersIffAtTail`). As long as no pop has emptied a node that does not happen,
  whatever the number of threads (`QueueDrops.NothingEmptiedNothingLost`), and with one pushing thread it never does
  (`QueueRuns.OnePusherLosesNothing`).
* `myallocator::allocate` for zero bytes computes an index outside its table; the model returns
  `OutsideTable` there, and for 1 to 128 bytes the index is in the table (`Pieces.IndexInTable`).
* The destructor of `thread_pool` waits for all accepted tasks if and only if there is an initial thread (or the
  task limit is zero), provided that nothing is committed after it has begun (`ThreadPool.DrainsExactly`). Without an
  initial thread a cached pool can even strand a task while it is running (`ThreadPool.LastThreadLeavesTask`). With
  an initial thread and a positive task limit there is a run that strands a task committed too late
  (`ThreadPool.LateCommitIsStranded`), and it is never executed whatever follows exactly if later commits can make
  no thread (`ThreadPool.LateCommitIsLost`).
* `on_message` consumes a header it cannot parse but not the arguments behind it, so the next frame is read out of
  step (`ArpcFrames.WhatIsLeft`, at a concrete input `ArpcFrames.ArgumentsStay`); and it leaves what follows a frame
  exactly if the header gives the true length of the arguments.
* A response that ends before its header should takes its call off the table if what there is of the header names
  it, and the call gets no response; but for the header lengths from 0xFFFFFFFC on the unsigned position behind the
  header wraps to the start, and the call is completed with what is there, the length and the header
  (`ArpcFrames.CutShort`, `ArpcFrames.LongLength`, at a concrete input `ArpcFrames.CompletedWithHeader`).
* `size_class::round_up` takes 64K and rounds the sizes above 65024 to it, but `size_class::index` asserts a size
  below 64K: a rounded size can be indexed if and only if the size is at most 65024 (`SizeClass.RoundedIsIndexed`).
* `threadsafe_stack_uk` keeps popped nodes on its pending list when no pop is in progress; nothing else is kept
  (`StackUk.NothingLeaks`). The next pop that runs alone deletes its own node and all of these, unless the stack is
  empty: then it returns before it looks at the pending list (`StackUkAlone.PopReclaims`).
* A waiting pop of `threadsafe_queue_s` returns without a value once the queue is stopped, also when there are values
  (`StealingAlone.StoppedPopReturns`).
* The comments in `inc/memory_pool/comm.h` give 64 bytes as the alignment up to 8K; the code uses 128, and the
  model follows the code. The waste stays under an eighth (`SizeClass.LittleWaste`).

## Model

| member | source | states |
|---|---|---|
| `AtomicStack.Conservation` | inc/public/ts_stack.h:212-292 | in every run of the atomic stack, what was there plus what was pushed is what was popped plus what is left, as multisets |
| `RefCountStack.Linearizable` | inc/public/ts_stack.h:212-292 | every interleaving of push and pop is a run of the atomic stack: a pop takes effect at the head CAS it wins, a null result at the count CAS that found null |
| `RefCountStack.MemorySafe` | inc/public/ts_stack.h:228-270 | no step touches or frees an unallocated node, and the empty_stack throw is unreachable |
| `RefCountStack.AtMostOnce` | inc/public/ts_stack.h:228-292 | the multiset of popped values is within that of pushed values |
| `RefCountStack.ContentsAgree` | inc/public/ts_stack.h:228-292 | at every moment the list from head is the contents of the atomic stack |
| `RefCountStack.CountsBalance` | inc/public/ts_stack.h:228-268 | at every moment, for every allocated node: on the stack the count in the link to it, less one, with the internal count is the number of holders and the internal count is not positive; unlinked, the same with the popper's count, less two; folded, the internal count is the number of holders, of which there is one; with a pusher or deleter nobody holds it, and one thread at most answers for it |
| `RefCountStack.DeletedByOne` | inc/public/ts_stack.h:247-267 | the thread that deletes a node is the only one about it, and the node is on no list from head |
| `RefCountStack.NothingLeaks` | inc/public/ts_stack.h:228-292 | with no pop in progress every allocated node is on the list or with a pusher that has not linked it |
| `RefCountStack.Keeps` | inc/public/ts_stack.h:212-292 | each single step of any thread keeps the counting invariant and is simulated by the atomic stack |
| `RefCountAlone.CallsAreAsked` | inc/public/ts_stack.h:228-292 | a run calls push with a value, or pop, exactly where its schedule asks an idle thread for it |
| `RefCountAlone.ReturnsAlone` | inc/public/ts_stack.h:212-292 | from every reachable state a thread that runs alone returns within 13 steps, with the effect and the answer its operation has on the contents as they are |
| `RefCountAlone.PushThenPop` | inc/public/ts_stack.h:212-292 | from every reachable state an idle thread that runs alone through push(v) and pop gets v back; in between v is on top of the contents, afterwards they are as before |
| `StackUk.Linearizable` | inc/public/ts_stack.h:90-123 | every interleaving of push and pop is a run of the atomic stack |
| `StackUk.MemorySafe` | inc/public/ts_stack.h:90-180 | no step of pop, try_reclaim, delete_nodes or chain_pending_nodes touches an unallocated node |
| `StackUk.NeverFreesLoaded` | inc/public/ts_stack.h:97-162 | a node that is being deleted, alone or in a list, is loaded by no thread inside pop |
| `StackUk.CounterCounts` | inc/public/ts_stack.h:97-154 | threads_in_pop is exactly the number of threads between its increment and its decrement |
| `StackUk.OnePlaceEach` | inc/public/ts_stack.h:90-180 | every allocated node is in exactly one place: with its pusher, on the stack, in a popper's hand, on the pending list or in one claimed list; the stack and the pending list hang from their heads and each claimed list from the variable of its thread, down to the node it is splicing |
| `StackUk.NothingLeaks` | inc/public/ts_stack.h:90-180 | with no pop in progress the allocated nodes are exactly those on the stack, on the pending list and with a pusher |
| `StackUk.ContentsAgree` | inc/public/ts_stack.h:90-117 | at every moment the list from head_ is the contents of the atomic stack |
| `StackUk.AtMostOnce` | inc/public/ts_stack.h:90-123 | the multiset of popped values is within that of pushed values |
| `StackUk.Keeps` | inc/public/ts_stack.h:90-180 | each single step keeps the ownership invariant and is simulated by the atomic stack |
| `StackUkAlone.CallsAreAsked` | inc/public/ts_stack.h:90-123 | a run calls push with a value, or pop, exactly where its schedule asks an idle thread for it |
| `StackUkAlone.ReturnsAlone` | inc/public/ts_stack.h:90-180 | from every reachable state a thread that runs alone returns within twice the number of nodes and 13 steps, with the effect and the answer of its operation |
| `StackUkAlone.PushThenPop` | inc/public/ts_stack.h:90-180 | from every reachable state an idle thread that runs alone through push(v) and pop gets v back, and the contents are as before |
| `StackUkAlone.PopReclaims` | inc/public/ts_stack.h:97-162 | with no other pop in progress, a pop that runs alone leaves nothing pending if and only if the stack was not empty or nothing was pending; when it was not empty the allocated nodes are exactly those on the stack and with pushers |
| `AtomicQueue.Fifo` | inc/public/ts_queue.h:422-496 | in every run of the queue object what left, followed by what is inside, is what was inside followed by what entered, in order |
| `QueueRuns.Linearizable` | inc/public/ts_queue.h:341-496 | every interleaving is a run of the queue object: a push enters when the tail moves past its node, a pop leaves at its head CAS |
| `QueueRuns.MemorySafe` | inc/public/ts_queue.h:314-496 | no step touches or frees an unallocated node |
| `QueueRuns.DeliveredInOrder` | inc/public/ts_queue.h:341-496 | what pops deliver is, in order, a prefix of what entered |
| `QueueRuns.ContentsAgree` | inc/public/ts_queue.h:341-359 | the head never passes the tail, the chain reaches at most one node past it, and every node from head up to the tail has its value |
| `QueueRuns.WinnerFindsValue` | inc/public/ts_queue.h:486-491 | a pop that has won the head CAS finds a value in the node |
| `QueueRuns.CountsBalance` | inc/public/ts_queue.h:314-404 | for every linked node, with each side fixed by the state (live, taken down by exactly one thread, not reached yet, or else folded), the 2-bit count is the number of links not folded yet, and the 30-bit count with the shares of live and detached links is the number of holders, modulo 2 to the 30 |
| `QueueRuns.NothingLeaks` | inc/public/ts_queue.h:314-496 | when all threads are idle the allocated nodes are exactly those of the chain from the head |
| `QueueRuns.DeletedByOne` | inc/public/ts_queue.h:327-385 | one thread deletes a node, which then is neither head nor tail and held by nobody |
| `QueueRuns.EntersIffAtTail` | inc/public/ts_queue.h:428-452 | a push whose data CAS succeeds enters its value before it returns if and only if the node was still the tail at the CAS |
| `QueueRuns.OnePusherLosesNothing` | inc/public/ts_queue.h:422-496 | with a single pushing thread and any number of popping ones no push is dropped, and each push that returns has entered between its call and its return |
| `QueueDrops.LostIffLate` | inc/public/ts_queue.h:422-466 | in every run, a push that returns has entered between its call and its return if and only if it has not in that time filled an empty node other than the tail with its own item |
| `QueueDrops.NothingEmptiedNothingLost` | inc/public/ts_queue.h:422-491 | with any number of threads, a run in which no node is emptied drops no push |
| `LostPush.PushCanBeLost` | inc/public/ts_queue.h:422-491 | there is a run in which all calls return, the queue is empty and a pushed value never entered it |
| `QueueSteps.Keeps` | inc/public/ts_queue.h:314-496 | each single step keeps the counting invariant and is simulated by the queue object |
| `QueueAlone.CallsAreAsked` | inc/public/ts_queue.h:422-496 | a run calls push with a value, or pop, exactly where its schedule asks an idle thread for it |
| `QueueAlone.ReturnsAlone` | inc/public/ts_queue.h:314-496 | from every reachable state a thread that runs alone returns within 28 steps |
| `QueueAlone.PopAlone` | inc/public/ts_queue.h:470-496 | from every reachable state a pop that runs alone takes the front of the queue and returns it, or null if it is empty |
| `QueueAlone.PushThenPop` | inc/public/ts_queue.h:422-496 | from every reachable state a push(v) that runs alone returns with v behind all that was in the queue, and the one value that another push may have left waiting in the tail node; a pop after it returns the front of that |
| `AtomicDeque.Conservation` | inc/concurrent/threadsafe_queue.h:25-191 | in every run of the deque what was there plus what was pushed is what pops and steals took plus what is left |
| `AtomicDeque.PopsInOrder` | inc/concurrent/threadsafe_queue.h:25-191 | pops leave in the order of the pushes whatever steals do, and every item left is newer than all popped ones |
| `StealingQueue.Linearizable` | inc/concurrent/threadsafe_queue.h:25-191 | every interleaving of push, the pops and try_steal at lock-step granularity is a run of the deque |
| `StealingQueue.MemorySafe` | inc/concurrent/threadsafe_queue.h:25-191 | no step touches a freed node, not even through the prev of the tail, takes a value that is not there, or destroys a node that owns another |
| `StealingQueue.NothingLost` | inc/concurrent/threadsafe_queue.h:158-191 | in every run the pushed values are those taken plus those still there |
| `StealingQueue.PoppedInOrder` | inc/concurrent/threadsafe_queue.h:30-175 | in every run pops come in submission order and every item left is newer than all popped ones |
| `StealingQueue.RaceFree` | inc/concurrent/threadsafe_queue.h:25-191 | in every run, what the next step of one thread writes, the next step of another neither reads nor writes, and all it uses is allocated; so a pop and a push at the same time never touch the same node |
| `StealingQueue.ChangesWritten` | inc/concurrent/threadsafe_queue.h:25-191 | a step changes no variable that exists but those it is said to write |
| `StealingQueue.DependsOnUsed` | inc/concurrent/threadsafe_queue.h:25-191 | an access goes on to the same place and leaves the same behind in any two states that agree on what it is said to read and write |
| `StealingQueue.StepsDoNotInterfere` | inc/concurrent/threadsafe_queue.h:25-191 | in every run, an access of one thread comes to the same whether a step of another comes first or not |
| `StealingQueue.NothingLeaks` | inc/concurrent/threadsafe_queue.h:25-191 | when all threads are idle the allocated nodes are exactly those of the queue, linked both ways |
| `StealingQueue.Keeps` | inc/concurrent/threadsafe_queue.h:25-191 | each single step keeps the invariant and is simulated by the deque |
| `StealingAlone.CallsAreAsked` | inc/concurrent/threadsafe_queue.h:25-191 | a run calls exactly the operations, with the values, that its schedule asks idle threads for |
| `StealingAlone.OperatesAlone` | inc/concurrent/threadsafe_queue.h:25-191 | from every reachable state in which no lock is held, a push, pop or try_steal that runs alone and does not have to wait returns within 13 steps: the value is at the back, the front is taken, the back is taken, or there was none |
| `StealingAlone.StoppedPopReturns` | inc/concurrent/threadsafe_queue.h:30-175 | on a stopped queue a waiting pop that runs alone returns without a value and takes nothing |
| `StealPool.EachTaskOnce` | inc/concurrent/steal_threadpool.h:72-136 | with any number of queues, workers and clients each submitted task is in exactly one queue, in one thread's hand, or executed once |
| `StealPool.RanAtMostOnce` | inc/concurrent/steal_threadpool.h:72-103 | no task is executed twice or without having been submitted |
| `StealPool.NothingLeftInHand` | inc/concurrent/steal_threadpool.h:72-136 | when no submit is under way and the workers have left, a task has run or else is in a queue |
| `StealPoolAlone.WorkerRunsAll` | inc/concurrent/steal_threadpool.h:72-103 | from any state of any run, a worker that runs alone in a pool that is not being destroyed runs every queued task, within n + 3 steps for each: its own from the oldest on, then those it steals, queue by queue and each from the newest on |
| `StealPoolAlone.TakesTurns` | inc/concurrent/steal_threadpool.h:125-136 | the tasks of a client that submits alone go round the queues in turn, each behind what is in its queue |
| `Pieces.CutIsSound` | inc/public/myallocator.h:205-214 | cutting a piece in two leaves all pieces aligned, disjoint and inside their chunk and loses no byte |
| `Pieces.IndexInTable` | inc/public/myallocator.h:154-160 | up to 128 bytes the list index is in the table exactly for one byte or more, and the list's size is the rounded size |
| `Pieces.MaskRoundsUp` | inc/public/myallocator.h:154-156 | for every word, the mask rounds up to the next multiple of eight if and only if the sum stays within a word |
| `FreeLists.Push` | inc/public/myallocator.h:111-117 | pushing a block keeps all lists linked, each free block in the list of its size once, and the total |
| `FreeLists.Pop` | inc/public/myallocator.h:93-99 | popping the head of a list keeps the same and yields a block of the size of that list |
| `PoolBooks.StockKeeps` | inc/public/myallocator.h:216-256 | filing the leftover and taking a new reserve from malloc or from a bigger list keeps the state valid and writes no word of the client's |
| `PoolBooks.ChunkKeeps` | inc/public/myallocator.h:199-259 | `_S_chunk_alloc` yields between one and the wanted number of objects as one piece, or nothing with both ends of the reserve null; the client sees nothing of it, also when out of memory |
| `PoolBooks.ChunkSparesList` | inc/public/myallocator.h:199-259 | an empty list of the requested size is still empty afterwards, so that refilling it overwrites no block |
| `PoolBooks.DealKeeps` | inc/public/myallocator.h:170-196 | `_S_refill` gives the first object to the client and links the others, in address order, into the list of their size |
| `PoolRequests.FailsExactly` | inc/public/myallocator.h:81-103 | allocate fails if and only if malloc is needed and refused: for a small request when the reserve is short, no list of that size or more has a block and malloc refuses twice |
| `PoolRequests.SameBlockAgain` | inc/public/myallocator.h:81-120 | releasing a block and asking for one of the same class returns it and restores lists, reserve and pieces |
| `PoolRequests.NewBlockIsNew` | inc/public/myallocator.h:81-103 | in any run a block handed out is not one the client holds, and the client's view stays right |
| `PoolRequests.ServedAgrees` | inc/public/myallocator.h:81-120 | one allocate, write or deallocate keeps the client's table and words in agreement with the allocator |
| `PoolRequests.ClientIsSafe` | inc/public/myallocator.h:81-259 | in any run, whatever malloc answers: held blocks are disjoint and inside malloc blocks, every word written in a held block is still there, and heap_size is the sum of all pieces |
| `PoolSupply.ChunkLeaves` | inc/public/myallocator.h:199-259 | a chunk is as many objects as are wanted or as fit, and the rest of what it is cut from is the reserve; from malloc come twice the bytes wanted and a sixteenth of the heap rounded up to eights, of which all but the objects wanted stay in reserve |
| `PoolSupply.RefillLeaves` | inc/public/myallocator.h:170-196 | a refill cuts up to 20 objects: one is the client's, the others are the list, and the rest is the reserve |
| `PoolSupply.ReadyServes` | inc/public/myallocator.h:81-259 | a request needs no malloc if and only if its list or the reserve has a block of its class, and then uses up exactly one of these |
| `PoolSupply.MallocStocksUp` | inc/public/myallocator.h:170-259 | a refill that malloc pays for asks for 40 objects and the share of the heap, and leaves 19 in the list and 20 objects and the share in reserve |
| `PoolSupply.EnoughForAnySize` | inc/public/myallocator.h:81-259 | right after such a refill no request of up to 128 bytes needs malloc |
| `PoolSupply.MallocLasts` | inc/public/myallocator.h:81-259 | one call of malloc serves the request and exactly 39 further ones of its class, and as many more as the share of the heap holds, without another call |
| `MyAllocator.Pool.constructor` | inc/public/myallocator.h:271-284 | a new allocator has empty lists, no reserve and heap size zero |
| `MyAllocator.Pool.KeepLeftover` | inc/public/myallocator.h:219-225 | the left-over piece goes to the head of the list of its own size |
| `MyAllocator.Pool.TryBiggerLists` | inc/public/myallocator.h:234-247 | the search loop opens the first list that has a block of the size or more, and changes nothing when there is none |
| `MyAllocator.Pool.ChunkAlloc` | inc/public/myallocator.h:199-259 | the recursive method terminates and computes the specified state, stretch and number of malloc calls |
| `MyAllocator.Pool.LinkBlocks` | inc/public/myallocator.h:182-194 | the loop writes the links of the whole run |
| `MyAllocator.Pool.Refill` | inc/public/myallocator.h:170-196 | computes the specified state and block for an empty list |
| `MyAllocator.Pool.Allocate` | inc/public/myallocator.h:81-103 | computes the specified state and result for any request |
| `MyAllocator.Pool.Deallocate` | inc/public/myallocator.h:106-120 | puts the block at the head of the list of its size, or gives it back to the system |
| `MyAllocator.Drive` | inc/public/myallocator.h:81-120 | a client's whole run against the class ends in the state that the run of the functions has |
| `ChatWire.ShortRoundTrip` | src/chat_server/csession.cc:142-156 | a short in network order is read back |
| `ChatWire.FrameBytes` | src/chat_server/msg_node.cc:8-17 | byte by byte: id and length with the high byte first, then the body |
| `ChatWire.ParseByBytes` | src/chat_server/csession.cc:137-167 | the first four bytes of a stream decide: id and length are the two numbers with their high bytes first, negative from 0x8000 on, and the stream waits, is refused over 2048, or starts with that message |
| `ChatWire.ParseStream` | src/chat_server/csession.cc:82-173 | a sender's whole stream means the messages before the first with an id or length over 2048, and the reader stops exactly if there is one |
| `ChatWire.ParsePrefix` | src/chat_server/csession.cc:82-173 | more bytes only add messages |
| `ChatWire.DeliveredInOrder` | src/chat_server/csession.cc:82-173 | the messages in any prefix of a sender's stream are a prefix of the deliverable ones |
| `ChatWire.AllDeliverable` | src/chat_server/csession.cc:147-164 | the deliverable messages are a prefix, all of them if and only if none is over a limit |
| `ChatSession.NewSendNode` | src/chat_server/msg_node.cc:8-17 | the filled buffer is the frame: id and length in network order, stated on its bytes, then the message |
| `ChatSession.Sender.Send` | src/chat_server/csession.cc:36-71 | a message is accepted exactly while the queue has at most 1000; accepted messages are kept in order and a write is started when none is in flight |
| `ChatSession.Sender.HandleWrite` | src/chat_server/csession.cc:175-200 | afterwards again exactly one write, of the queue's front, is in flight if the queue has messages, and written messages followed by the queue are the accepted ones; after an error nothing more goes out |
| `ChatSession.Receiver.OnRead` | src/chat_server/csession.cc:203-231 | a read of any size is appended to what was consumed, nothing posted is taken back, and the reader is again in step with the bytes |
| `ChatSession.Receiver.OnHead` | src/chat_server/csession.cc:137-167 | a whole head starts the read of a body if and only if its id is at most 2048 and its length from 0 to 2048, both taken from its bytes in network order, and ends the reading otherwise |
| `ChatSession.Receiver.PostedIsParsed` | src/chat_server/csession.cc:82-231 | whatever the sizes of the reads, the posted messages are exactly what the bytes mean, and the reader reads on exactly if they allow it |
| `ChatSession.Receiver.PostedIsPrefix` | src/chat_server/csession.cc:82-231 | at every moment the posted messages are a prefix of what the bytes mean |
| `ChatSession.Connection.EndToEnd` | src/chat_server/csession.cc:36-231 | between two sessions the posted messages are always a prefix of the accepted ones up to the first over a limit, and all of these once the stream has been read |
| `ChatSession.Run` | src/chat_server/csession.cc:36-231 | this holds after any sequence of sends, partial transfers, completions, reads of any size and failures |
| `ArpcWire.VarintRoundTrip` | src/arpc/arpc_header.pb.cc:205-246 | a varint is read back and what follows it is left |
| `ArpcWire.VarintDigits` | src/arpc/arpc_header.pb.cc:268-318 | a varint has the digits of the number to the base 128, the lowest first, and the high bit is set in all bytes but the last (Protocol Buffers Encoding, section 'Base 128 Varints') |
| `ArpcWire.WordBytes` | src/arpc/arpc_header.pb.cc:281-285 | a fixed32 has the lowest byte first |
| `ArpcWire.PrintedFields` | src/arpc/arpc_header.pb.cc:268-318 | a printed header is its fields in the order of their numbers, each behind a byte with eight times its number and its wire type; zero and empty fields are not there |
| `ArpcWire.ParsePrinted` | src/arpc/arpc_header.pb.cc:195-417 | reading a printed header in front of anything merges it into what was read before |
| `ArpcWire.LastOneWins` | src/arpc/arpc_header.pb.cc:195-417 | reading two printed headers one after the other gives the second merged into the first (Protocol Buffers Encoding, section 'Last One Wins') |
| `ArpcWire.PrintParse` | src/arpc/arpc_header.pb.cc:195-318 | a printed header is read back, all six fields |
| `ArpcHeader.VarintLength` | src/arpc/arpc_header.pb.cc:320-373 | a varint has k bytes if and only if the number is below 128 to the k and not below the power before |
| `ArpcHeader.Message.Clear` | src/arpc/arpc_header.pb.cc:181-193 | all fields have their defaults |
| `ArpcHeader.Message.MergeFrom` | src/arpc/arpc_header.pb.cc:390-417 | fields of the other that are not zero or empty replace this one's |
| `ArpcHeader.Message.CopyFrom` | src/arpc/arpc_header.pb.cc:426-431 | the result is the other message, also when it is this one |
| `ArpcHeader.Message.ByteSizeLong` | src/arpc/arpc_header.pb.cc:320-373 | the sum is the length of the printed header, negative enums included |
| `ArpcHeader.Message.InternalSerialize` | src/arpc/arpc_header.pb.cc:268-318 | the target buffer holds the printed header from the given position on and is unchanged before it |
| `ArpcHeader.Message.InternalParse` | src/arpc/arpc_header.pb.cc:195-266 | the loop reads the whole string into the fields, or fails |
| `ByteBuffer.Buffer.CopyDown` | inc/mmuduo/buffer.h:97-98 | the overlapping copy to the left moves the stretch and nothing else in front or behind |
| `ByteBuffer.Buffer.MakeSpace` | inc/mmuduo/buffer.h:91-101 | room is made by growing exactly when all free bytes together are too few, and the readable bytes stay |
| `ByteBuffer.Buffer.Append` | inc/mmuduo/buffer.h:57-68 | the bytes are readable after all that were |
| `ByteBuffer.Buffer.Retrieve` | inc/mmuduo/buffer.h:35-45 | the first bytes go, or all when as many or more are asked for |
| `ByteBuffer.Buffer.RetrieveAsString` | inc/mmuduo/buffer.h:51-55 | the first bytes come out and the others stay |
| `ByteBuffer.Use` | inc/mmuduo/buffer.h:35-101 | after any appends and retrieves what came out followed by what is left is what went in |
| `ArpcFrames.FrameParts` | src/arpc/arpc_server.cc:66-84 | a frame in front of anything is complete and is taken apart into header, arguments and rest |
| `ArpcFrames.ServerDecodes` | src/arpc/arpc_server.cc:62-84 | the server recovers header and arguments of a frame and leaves exactly what follows |
| `ArpcFrames.WhatIsLeft` | src/arpc/arpc_server.cc:62-84 | for any header bytes, arguments and rest: after a malformed header the arguments and the rest stay, and otherwise exactly the rest stays if and only if the header gives the length of the arguments |
| `ArpcFrames.ArgumentsStay` | src/arpc/arpc_server.cc:72-84 | a frame with a header of one zero byte leaves its arguments in the buffer |
| `ArpcFrames.OnMessage` | src/arpc/arpc_server.cc:62-84 | the retrieve calls on the buffer compute exactly this |
| `ArpcFrames.SendResponse` | src/arpc/arpc_server.cc:142-162 | the response frame has the id of the call and the length of the response |
| `ArpcFrames.ChannelDecodes` | src/arpc/arpc_channel.cc:123-166 | a response completes the call with its id, with exactly the response, and takes only that call off the table |
| `ArpcFrames.CutShort` | src/arpc/arpc_channel.cc:123-166 | for received bytes that end within the header: if and only if what there is of the header names a call that wants its response, the call is taken off the table and either out of range or, exactly for the last four lengths, whose sum with four wraps, completed with bytes from the length or the header on |
| `ArpcFrames.LongLength` | src/arpc/arpc_channel.cc:123-166 | a whole response header behind a length that is too large takes the call it answers off the table, without a response below 0xFFFFFFFC and with the wrong bytes from there on |
| `ArpcFrames.CompletedWithHeader` | src/arpc/arpc_channel.cc:123-166 | at a concrete input a call is completed with a byte of the length and three of the header |
| `ArpcFrames.Channel.CallMethod` | src/arpc/arpc_channel.cc:28-57 | the frame has the next id, which wraps around and is that of a call under way exactly if that call was made a multiple of 2^32 calls ago, and the call is in the table under it |
| `ArpcFrames.Channel.OnResponse` | src/arpc/arpc_channel.cc:123-166 | the decoding computes the specified answer and table for any received bytes: too few, cut short, unreadable, not a response, unknown, unwanted or complete |
| `ArpcFrames.RoundTrip` | src/arpc/arpc_channel.cc:28-166 | a call reaches the server as sent, its response completes it, and the table of calls is as before |
| `ThreadPool.CountersAreRight` | inc/threadpool/thrdp.h:131-314 | while the pool runs: the thread count is that of the threads and within its limits, idle ones are those not at work, and the task count is the length of the queue and within its limit |
| `ThreadPool.EachTaskOnce` | inc/threadpool/thrdp.h:131-314 | in every run each accepted task is in the queue, with one thread, or executed once |
| `ThreadPool.TakenInOrder` | inc/threadpool/thrdp.h:131-314 | threads take the tasks in the order in which they were accepted, and a thread that looks at a queue with a task takes one |
| `ThreadPool.AllTasksRun` | inc/threadpool/thrdp.h:90-314 | with an initial thread and no commit after the destructor has begun, no thread is left only when every accepted task has run exactly once |
| `ThreadPool.DrainsExactly` | inc/threadpool/thrdp.h:90-314 | in every run in which the destructor begins, nothing is committed after that and no thread is left, all accepted tasks have been executed, if and only if there is an initial thread or the task limit is zero |
| `ThreadPool.LastThreadLeavesTask` | inc/threadpool/thrdp.h:132-314 | a cached pool without initial threads has a run that strands a task while the pool is running, for all limits of at least one |
| `ThreadPool.LateCommitIsStranded` | inc/threadpool/thrdp.h:90-185 | with initial threads, in either mode, there is a run in which all threads leave and a task is accepted after that |
| `ThreadPool.LateCommitIsLost` | inc/threadpool/thrdp.h:90-213 | that task is executed in no continuation if and only if the pool is not cached, has all its threads, or has a task limit no greater than the number of initial threads |
| `TsList.List.PushFront` | inc/public/ts_list.h:96-108 | the value is first, and the last-node pointer is on the last node |
| `TsList.List.PushBack` | inc/public/ts_list.h:110-118 | the value is last, and the last-node pointer is on its node |
| `TsList.List.RemoveIf` | inc/public/ts_list.h:39-61 | exactly the values that fail the test stay, in order, and the last-node pointer is on the last node |
| `TsList.List.RemoveFirst` | inc/public/ts_list.h:65-88 | exactly the first value that passes the test goes, and it is reported whether there was one |
| `TsList.List.FindFirstIf` | inc/public/ts_list.h:122-135 | the first value that passes the test, if any |
| `TsList.WithoutKeeps` | inc/public/ts_list.h:39-61 | what stays has every failing value as often as before and no passing one, and removing again changes nothing |
| `SizeClass.ServesRounded` | inc/memory_pool/comm.h:183-240 | below 64K the list of a size serves exactly the rounded size, and the index is in the table exactly for one byte or more |
| `SizeClass.RoundedIsIndexed` | inc/memory_pool/comm.h:191-240 | round_up accepts exactly the sizes up to 64K and index those below it; a rounded size has the list of the size if and only if the size is at most 65024, and index refuses it above |
| `SizeClass.SameListSameSize` | inc/memory_pool/comm.h:191-240 | two sizes share a list if and only if they are rounded alike, and the lists are in the order of sizes |
| `SizeClass.TightestFit` | inc/memory_pool/comm.h:191-240 | a rounded size is the smallest served size that is enough |
| `SizeClass.MaskIsShift` | inc/memory_pool/comm.h:183-215 | for every size and every power of two, in 64-bit words and wrapped or not, the size rounded with the mask is the number found with the shift, plus one, times the alignment; the source, which shifts an int, computes that power for shifts below 31 |
| `Bits.RoundsUp` | inc/memory_pool/comm.h:183-185 | rounding with the mask gives a multiple of the alignment, and the next one at or above the size if and only if the sum does not wrap |
| `SizeClass.LittleWaste` | inc/memory_pool/comm.h:186-209 | above 128 bytes less than an eighth of a block is wasted |

## Left out

- Hardware memory orders: all atomics are sequentially consistent; a weak CAS may fail without cause.
- Fields that constructors leave uninitialised start as null, zero and false: `to_be_deleted`, `threads_in_pop`, `bstop`, and the `data` pointer of a `lock_free_queue` node (inc/public/ts_queue.h:293-311).
- The lock-free containers, the stealing queue and both pools are modelled on values, as state machines over steps, because Dafny methods run to completion and cannot be interleaved; updates in place are the fields of the state.
- Width of external counts: the int in a counted pointer does not overflow in the model; the 30-bit and 2-bit counts of the queue are modelled with wrap-around, for fewer than 2^30 threads.
- Destructors of the containers, the exception safety of node construction, and `emplace` and the other queues and stacks of the same headers.
- Progress of threads that run together: an operation is shown to return when its thread runs alone (in the stealing queue, when no lock is held and it need not wait); fairness, the waking of waiting pops and the end of the pools are left out.
- `threadsafe_queue_s`: `empty` and the pops that return the shared pointer are left out; they take the same steps as the ones modelled. `std::lock` is one step.
- `steal_thread_pool`: the queues are taken to be atomic deques, which is what the model of the queue shows; the number of queues is positive.
- `myallocator::reallocate`, the scaling by `sizeof(T)`, the mutex and an out-of-memory handler: sizes are bytes, calls are one at a time and the handler is null. Sizes do not overflow. A malloc block is aligned to eight bytes and named by its number, so reuse of addresses by malloc itself is not seen. Memory is modelled in words at multiples of eight.
- Chat session: the socket, logging, session table and logic system; a frame with a negative length ends the model's run as `Undefined`; messages whose length as a short is negative or over 32763 are not sent.
- RPC: unknown fields, which the library skips, end the parse as `Foreign` and the model's run as `ForeignCall` or `ForeignAnswer`; string fields are shorter than 2^31 - 16 bytes, as the protobuf library requires; sockets, service lookup, frames the server has received in part, responses over 1024 bytes and the parsing of request and response bodies.
- `thread_pool`: the model starts when `start` has returned, for the first pool of a process (thread numbers start at zero); waiting clients that give up change nothing; the time a thread has been idle is a choice.
- `threadsafe_list`: operations are taken one at a time; `for_each` and the locks are left out.
- Thread, central and page caches, connection pools, JSON handlers, loggers, the event loop and the demos are not part of this model.
