# A verified model of the proxy's runtime

The proxy keeps its network engine on a runtime of its own: lock-free queues, a job engine, reference-counted raw
messages, a buffer allocator, CRC arithmetic, an event heap, and tables that tie clients to outbound connections.
These modules model that runtime and prove what it relies on.

- **Concurrent parts** (`MpRing`, `MpQueue`, `JobEngine`, `Sublist`, `ChunkLock`) are step machines. A state holds the
  shared words and the place of every thread; one step is one atomic instruction or one plain access to shared memory,
  under sequential consistency. A schedule says who moves and how choices fall, so a theorem about `Run` or `Reachable`
  is about every interleaving of any number of threads; `JobEngine` starts from a job that any number of others hold
  references to. The `...Safety` modules hold the invariants. What callers ask for is kept in logs that are computed from
  the choices of a schedule alone (`LogIn`, `GivenIn`, `AskedIn`, `Freed`), and theorems tie them to the shared state. The
  `...Alone` modules prove that calls end when they run on alone.
- **Sequential parts** are classes whose methods change state as the source does, each proved against a function or
  predicate over plain values, and lemmas about these. `RawMsg.Messages` holds the memory behind all raw messages as
  maps from addresses; `EventHeap.Events`, `BufferTree.Chunk` and `Crc32.Combiner` work in place on arrays;
  `ExtConn.Tables` holds the hash, the id table and the circular lists.
- **Numbers.** 32-bit arithmetic is written out modulo 2^32 where it matters (`BufferIndex`, `EventHeap.Wrap`). Words of
  the CRC are sequences of 32 bits, lowest first, and every theorem about them holds for any modulus `p`; `Constants`
  ties the modulus of the program to its literals. Tickets of the queue and outbound ids are unbounded, with the closed
  bit of `mqb_tail` apart.

| file | models |
|---|---|
| `MpRing`, `MpQueue`, `MpQueueSafety`, `MpQueueValues`, `MpQueueAlone`, `MpQueueEmpty`, `Counting` | the queue of `common/mp-queue.c` |
| `JobEngine`, `JobEngineSafety`, `JobSignals`, `JobReferences`, `JobAlone`, `Sublist` | one job, and the jobs of one class with subclasses, of `jobs/jobs.c` |
| `RawMem`, `RawHeap`, `RawSteps`, `RawOps`, `RawGrow`, `RawMsg` | raw messages of `net/net-msg.c` |
| `BufferTree`, `BufferIndex`, `ChunkLock`, `ChunkAlone` | one chunk of `net/net-msg-buffers.c` |
| `Gf32`, `Gf32Vectors`, `Crc32`, `CrcValue`, `Crc32Repair`, `CrcOrder` | `common/crc32.c` |
| `CircularLists`, `ExtTables`, `ExtConn` | external connections of `mtproto/mtproto-proxy.c` |
| `TlsStream` | the counter-mode streams of `net/net-tcp-connections.c` |
| `EventHeap`, `Ipv6Text` | `net/net-events.c`, and the IPv6 parser of `mtproto/mtproto-proxy.c` |
| `PowersOfTwo`, `Sequences` | arithmetic and laws of concatenation that several of them share |

What the proofs brought out about the code:

- When every pop has a token, the compare-and-swap of the tail in `mpq_fix_state` is never reached (`TailNeverFixed`).
  It can only matter to pops without tokens, which the machine covers as well (`gated == false`).
- A call on a chunk of buffers that runs on alone does not always end: while another thread has stored a freed buffer in
  the chunk's queue and not posted its token, `unlock_chunk` sees a queue that is not empty, locks again and pops nothing,
  round and round. `EndsExactly` says exactly when it ends. Calls of the queue wait for nothing but a token (`PushAlone`,
  `PopAlone`, `EmptyAlone`), and calls on a job for nothing (`WorkAlone`).
- `greater_ev` is the order by priority and timestamp only as long as the difference of two priorities is an int
  (`GreaterIsLater` gives the exact condition). The program uses priorities from -10 to 10.
- `parse_text_ipv6` refuses what `conv_ipv6_internal` prints for an IPv4-mapped address, and only that (`RoundTrip`).
- The order of x modulo the polynomial of CRC-32 is 2^32 - 1 (`PowersDiffer`), so `crc32_check_and_repair` repairs every
  single flipped bit of any data whose bits can be counted in 32 bits (`CheckAndRepairCrc32`, `AnyFlip`). For other
  moduli it can give up on one only if two powers of x below the number of bits agree (`Decided`).
- `forward_tcp_query` finds the connection of a client by its descriptor alone. The id it sends belongs to the same
  generation of the descriptor exactly if no connection of another generation is left, or its middle-end connection is
  gone (`ForClient`); the close handler sees to the first (`ClientClosed`).
- `rwm_process_ex` with both of its flags would make the length of a message negative (`BothFlagsBreak`); no caller does.
- `RPC_CLOSE_EXT` does not look at who sends it; answers and acknowledgements are matched with the sender
  (`CloseExt`, `Answer`).

## Model

| member | source | states |
|---|---|---|
| MpRing.NewRingOk | common/mp-queue.c:168-240 | A new ring, empty or with one first value, satisfies the ring invariant: cells, tickets and stored values agree. |
| MpRing.TakeOk | common/mp-queue.c:277-330 | A pop that finds a full cell with the index of its own ticket takes exactly the value stored under that ticket, keeps the invariant, and spoils no pending push. |
| MpRing.UnsafeOk | common/mp-queue.c:277-330 | Clearing the safe bit of a cell that holds an older value keeps the invariant, and no push of the given-up ticket can succeed any more. |
| MpRing.BumpOk | common/mp-queue.c:277-330 | Moving an empty cell past a given-up ticket keeps the invariant, and every push still in flight stays safe. |
| MpRing.SkipOk | common/mp-queue.c:277-330 | A pop that finds its cell already past its ticket may give up: no value is or will be stored under that ticket. |
| MpRing.StoreOk | common/mp-queue.c:332-368 | A push whose compare-and-swap succeeds does so before the pop of the same ticket has given up, and never on a ticket used before. |
| MpRing.AdvanceTailOk | common/mp-queue.c:255-275 | The tail correction after pops overtook the pushes keeps the invariant. |
| MpQueueSafety.StepOk | common/mp-queue.c:277-667 | Every step of every thread (semaphore, pop, push, emptiness test) keeps the invariant of the whole queue, in which tokens posted, held and owed add up to the number of values stored. Which values these are is in MpQueueValues. |
| MpQueueSafety.TokenNeverFails | common/mp-queue.c:600-656 | In every run in which each pop has a token first, no pop comes back without a value: `assert (v)` cannot fail. |
| MpQueueSafety.TokenMeansMore | common/mp-queue.c:435-480 | A pop with a token that gave up its ticket and sees no more tickets in the ring is not in the last ring of the list. |
| MpQueueSafety.ClaimsLeaveOne | common/mp-queue.c:121-163 | If every value is in the hands of a pop and one more thread holds a token without a ticket, there are fewer values than tokens held. |
| MpQueueSafety.PopDelivers | common/mp-queue.c:277-330 | A pop returns the value that was stored under the ticket it drew, unchanged, and marks the ticket taken, which it was not before. |
| MpQueueSafety.TicketsResolveOnce | common/mp-queue.c:277-368 | Over any later run, a value taken is never in the ring again, and a ticket a pop gave up on is never stored under. |
| MpQueueSafety.UnlinkedIsDrained | common/mp-queue.c:435-480 | A value still in a ring that was unlinked from the list is in the hands of the thread whose pop drew its ticket. |
| MpQueueSafety.EmptyMeansClaimed | common/mp-queue.c:484-529 | When `mpq_is_empty` answers yes, every value in the queue is in the hands of the pop that drew its ticket. |
| MpQueueSafety.FirstOut | common/mp-queue.c:277-368 | First in, first out: while a pop is at work on its ticket, every value stored under an earlier ticket, in this ring or one before it, is in the hands of its own pop. |
| MpQueueSafety.TailNeverFixed | common/mp-queue.c:255-275 | In runs in which every pop has a token, no thread ever reaches the compare-and-swap that raises the tail. |
| MpQueueSafety.ServesOne | common/mp-queue.c:484-667 | While one thread pops, the others take away no token and no value, a token that is there is seen and got, its pop returns a value, and a yes of the emptiness test means that nothing is left. |
| MpQueueValues.NothingLost | common/mp-queue.c:533-667 | In every run, for every value: the times it was given to a push are the times it was stored and those in which a push of it is still at work; and again the times a pop returned it, those it lies in the queue, and those still at work. |
| MpQueueValues.PoppedWasPushed | common/mp-queue.c:435-667 | Pops return only what was pushed, and no value more often than it was pushed. |
| MpQueueValues.RestIsInQueue | common/mp-queue.c:435-667 | When no call is at work, what was pushed and not popped lies in the queue. |
| MpQueueValues.StoresOwnValue | common/mp-queue.c:332-368 | What a thread stores is the value its last call of push was given, under a ticket it drew itself. |
| MpQueueValues.StepBalanced | common/mp-queue.c:277-667 | Each step of any thread keeps the balance of values pushed, stored and popped. |
| MpQueueAlone.PushAlone | common/mp-queue.c:533-667 | From any reachable state, wherever the other threads have stopped, a push that runs on alone returns, and has posted one token. |
| MpQueueAlone.PopAlone | common/mp-queue.c:435-480 | Likewise a pop that has a token gets a value. |
| MpQueueAlone.TokenAlone | common/mp-queue.c:600-656 | A call of mpq_pop_w or mpq_pop_nw that finds a token and runs on alone returns a value. |
| MpQueueAlone.TryAlone | common/mp-queue.c:634-656 | mpq_pop_nw alone ends: with a value if there is a token, and otherwise without one, having changed nothing. |
| MpQueueAlone.OldestOut | common/mp-queue.c:435-480 | With no other pop at work, a pop gets the oldest value: the first live ticket of the first ring that has one. |
| MpQueueEmpty.StepShape | common/mp-queue.c:332-598 | Between calls a closed ring has a successor with a value, and the last ticket of an open one is that of a value, or of a push at work, or pops have drawn as many. |
| MpQueueEmpty.EmptyAlone | common/mp-queue.c:484-529 | mpq_is_empty alone comes to an answer. |
| MpQueueEmpty.EmptyIsRight | common/mp-queue.c:484-529 | With no other call at work the answer is yes if and only if no value is in the queue. |
| JobEngineSafety.InitOk | jobs/jobs.c:1065-1115 | A new job, locked, with any signals set and any number of references given out, satisfies the invariant. |
| JobEngineSafety.Busy | jobs/jobs.c:599-768 | The runs are not empty: there is one in which a handler runs while another thread is about to set a signal and a third holds a reference. |
| JobEngineSafety.StepOk | jobs/jobs.c:599-813 | Every step of locking, unlocking, sending, dropping a reference, processing an entry and handling keeps the invariant of a job's flags, count, queue entries and pending signals. |
| JobEngineSafety.MutualExclusion | jobs/jobs.c:599-742 | In every run, at most one call is between locking and unlocking the job; so at most one handler runs. |
| JobEngineSafety.NoSignalLost | jobs/jobs.c:613-742 | Whenever the job is unlocked with an allowed signal pending, a queue has an entry for it or some call is at a step that will try to lock or enqueue it. That a signal sent becomes pending is JobSignals.SentIsPending. |
| JobEngineSafety.ClearedByDelivery | jobs/jobs.c:651-742 | A pending signal disappears only at the step that starts its handler, by the holder of the lock, while it is allowed. |
| JobSignals.SentIsPending | jobs/jobs.c:745-768 | Whatever happens after a call of job_send_signals, either it has not yet come to setting the signals, or each of them is pending or has had its handler started since the call. |
| JobSignals.SentIsStarted | jobs/jobs.c:613-768 | When everybody has come to rest and the job is not over, every signal sent that is allowed has had its handler started since it was sent. |
| JobSignals.CreatedIsPending | jobs/jobs.c:1065-1115 | The same for the signals that the creator of the job sets. |
| JobSignals.ReturnedIsPending | jobs/jobs.c:686-693 | The same for the signals that a handler returns. |
| JobSignals.CompletedByReturn | jobs/jobs.c:686-693 | A handler that returns JOB_COMPLETED completes the job, for good. |
| JobSignals.OnlyIfAsked | jobs/jobs.c:613-768 | In every run, a signal that is pending or handled was set by the creator, sent, or returned by a handler, unless it is JS_FINISH; and the job is complete only if a handler said so. |
| JobSignals.HighestFirst | jobs/jobs.c:619-664 | unlock_job serves the highest pending signal that is allowed, here or by way of the queue of its class, and lets go of the job only if there is none. |
| JobEngineSafety.CountIsExact | jobs/jobs.c:745-796 | The reference count equals the references held by owners, calls and queue entries, except at the one step between the last holder's decrement and its reset to 1. |
| JobReferences.ReferencesBalance | jobs/jobs.c:745-813 | In every run the references are those of the creator and the first owners, and those made by job_incref since, without those given up. |
| JobReferences.SettingsAre | jobs/jobs.c:1057-1062 | The signals allowed and their classes are those that a handler has set last. |
| JobEngineSafety.FinishRaisedOnce | jobs/jobs.c:613-649 | Only the holder of the last reference raises JS_FINISH, once, and with no allowed signal pending. |
| JobEngineSafety.NobodyElseAfterFinish | jobs/jobs.c:777-787 | From JS_FINISH on there is at most one reference, and after the handler nobody can change the job. |
| JobEngineSafety.EndsOnce | jobs/jobs.c:613-796 | A job is destroyed exactly when no reference is left, and JS_FINISH was raised exactly once by then: none is freed without it and none is forgotten. |
| JobEngineSafety.DestroyedIsFinal | jobs/jobs.c:745-796 | No step changes anything once the job is destroyed. |
| JobEngineSafety.NoAssertionFails | jobs/jobs.c:599-813 | No assertion of try_lock_job, unlock_job, job_send_signals and job_decref fails in any run. |
| JobAlone.WorkAlone | jobs/jobs.c:599-813 | From any reachable state, wherever the others have stopped, a call at work on a job that runs on alone gives up its reference or gets into a handler. |
| JobAlone.CallAlone | jobs/jobs.c:745-787 | So do job_send_signals and job_decref from their start, and unlock_job from the return of a handler. |
| Sublist.StepOk | jobs/jobs.c:953-1014 | Every step of announcing and of the subclass runner keeps the counters, the semaphore and the lock words in agreement. |
| Sublist.OneServer | jobs/jobs.c:953-1014 | Two threads never serve the same subclass, and none serves the exclusive subclass -1 while another serves any. |
| Sublist.NoJobStranded | jobs/jobs.c:953-1014 | An unlocked subclass with jobs not yet processed has some thread that will look at it again. |
| Sublist.QuiescentIsDone | jobs/jobs.c:953-1014 | When all threads are idle and nothing is being announced, no job is left in the queue of the subclass, nothing is locked and the semaphore is full. |
| Sublist.EveryJobRuns | jobs/jobs.c:953-1014 | In every run, the jobs pushed for a subclass are those in its queue, those about to be run and those run: none is dropped and none is run twice. |
| Sublist.RestHasRun | jobs/jobs.c:725-733 | At rest every job pushed for the subclass has been run. |
| Sublist.PopNeverFails | jobs/jobs.c:986-992 | The pop from a subclass queue by its server always finds the job that was announced. |
| ChunkLock.OneHolder | net/net-msg-buffers.c:133-160 | At most one thread works on the tree of a chunk. |
| ChunkLock.NoFreeStranded | net/net-msg-buffers.c:547-569 | If the chunk is unlocked and its queue of deferred frees is not empty, some thread is between its push or release and its next attempt to lock. |
| ChunkLock.QuiescentIsFree | net/net-msg-buffers.c:547-569 | When all calls are over, a buffer is free in the tree exactly if it was freed since it was last handed out, by the log of the calls: no deferred free is lost. |
| ChunkLock.OutIsHandedOut | net/net-msg-buffers.c:133-160 | In every run a buffer is recorded as handed out exactly while the callers have it, by the log of the calls. |
| ChunkAlone.EndsExactly | net/net-msg-buffers.c:133-160 | A call at work on the chunk that runs on alone comes to its end if and only if another thread holds the chunk, or no other thread is between storing a freed buffer and posting its token. |
| RawMem.Join | net/net-msg.c:803-838 | The bytes of two chains one behind the other are those of the first followed by those of the second. |
| RawMem.Cut | net/net-msg.c:738-801 | Cutting a chain inside any part gives two chains whose bytes are the two halves. |
| RawHeap.FreePartOk | net/net-msg.c:95-123 | Freeing a part whose only reference is given up leaves every other part and buffer with exact counts, with the reference to its successor now held by the caller. |
| RawHeap.Exclusive | net/net-msg.c:252-323 | If all parts on the way from the head of a message have one reference, no other message uses any of them; so they may be changed in place. |
| RawHeap.NothingLeaks | net/net-msg.c:95-123 | With exact counts and falling ranks, a memory in which no message has parts holds no part and no buffer. |
| RawSteps.OneChain | net/net-msg.c:864-890 | The memory alone determines the chain of a message that ends at its last part. |
| RawSteps.CopiedMsg | net/net-msg.c:252-323 | The message whose parts were replaced by private copies from some part on has the same bytes, and all its parts for itself. |
| RawOps.SplitOk | net/net-msg.c:738-794 | Cutting at any point of any part gives the two messages the two halves, keeps counts and locks exact, and leaves every other message as it was. |
| RawOps.AdvanceOk | net/net-msg.c:908-1039 | Dropping a prefix that ends in any part leaves the rest of the bytes, and hands the old first part over for release. |
| RawGrow.GrownOn | net/net-msg.c:363-480 | Bytes written behind the end of a message's own open last part become part of that message and of no other. |
| RawGrow.AppendedOn | net/net-msg.c:363-480 | A new part linked behind the last one adds its bytes to the message and to no other. |
| RawGrow.FrontOn | net/net-msg.c:487-553 | Bytes written before the start of an unshared first part become a prefix of that message and of no other. |
| RawGrow.PrefixedOn | net/net-msg.c:487-553 | A new part before the first one adds its bytes as a prefix to the message and to no other. |
| RawGrow.JoinedOn | net/net-msg.c:803-838 | Linking the last part of one message to the first of another appends the bytes, keeps counts exact and chains acyclic, and changes no other message. |
| RawMsg.Messages.constructor | net/net-msg.c:555-561 | Memory starts with no part, no buffer and no message. |
| RawMsg.Messages.Create | net/net-msg.c:555-566 | A structure not in use becomes a message with exactly the given bytes; nothing else changes. |
| RawMsg.Messages.AllGone | net/net-msg.c:193-201 | When every message was freed or cleared, no part and no buffer is left. |
| RawMsg.Messages.ViewIs | net/net-msg.c:864-890 | The bytes of a message depend on the memory alone, not on the bookkeeping of the proof. |
| RawMsg.Messages.Decref | net/net-msg.c:95-123 | Giving up a reference frees exactly the parts left without one and keeps the bytes of every message. |
| RawMsg.Messages.Fork | net/net-msg.c:252-323 | Afterwards the message has all its parts for itself and the same bytes; every other message is as before, and no locked part was touched. |
| RawMsg.Messages.LockLast | net/net-msg.c:125-156 | Afterwards the last part of the message ends where the message ends, and is locked unless the message has all its parts for itself. |
| RawMsg.Messages.LockFirst | net/net-msg.c:158-190 | Afterwards the first part begins where the message begins; bytes, locks and other messages are kept. |
| RawMsg.Messages.Clone | net/net-msg.c:342-354 | The new message has the bytes of the old one, which with all others keeps its own. |
| RawMsg.Messages.Move | net/net-msg.c:356-361 | The target structure takes over the bytes, the source goes out of use, all others are kept. |
| RawMsg.Messages.Clear | net/net-msg.c:333-340 | The message is empty, all others are kept. |
| RawMsg.Messages.Free | net/net-msg.c:193-201 | The message is gone and its reference with it; all others, and the locks they hold, are kept. |
| RawMsg.Messages.Push | net/net-msg.c:363-485 | The bytes are appended, whatever parts and buffers they end up in, the length is returned, and no other message sees any of it. |
| RawMsg.Messages.PushFront | net/net-msg.c:487-553 | The bytes are put before those of the message, and no other message sees any of it. |
| RawMsg.Messages.Split | net/net-msg.c:738-794 | For n > 0 the message keeps its first n bytes and the other gets the rest, or all stay and -1 is returned when there are fewer; no other message changes. |
| RawMsg.Messages.SplitHead | net/net-msg.c:796-801 | The same with the head in the new message. |
| RawMsg.Messages.Union | net/net-msg.c:803-838 | The first message has the bytes of both, the second goes out of use, no other message changes, and no lock stays. |
| RawMsg.Messages.Process | net/net-msg.c:908-1039 | The callback gets exactly the bytes from the offset on, at most as many as there are, block by block; a negative result is that of the callback on the last block handed out, and it failed on none before; a callback that never fails makes the call return the number of bytes. By mode the message then keeps all, loses them and what is before them, or loses them and what is behind; after a failure it keeps all. |
| RawOps.CalledNext | net/net-msg.c:969-989 | One block more: an empty one is not handed out, one that is taken extends what was taken, and one that fails ends it. |
| RawOps.EveryBlock | net/net-msg.c:969-989 | Between any two neighbouring cuts lies a block on which the callback did not fail, given the bytes before it. |
| RawOps.BothFlagsBreak | net/net-msg.c:921-940 | With both flags the branch for the last part leaves a negative length, for any range, so no message. |
| BufferTree.CountIs | net/net-msg-buffers.c:252-260 | Every inner count is the number of free leaves below. |
| BufferTree.Determined | net/net-msg-buffers.c:252-260 | The leaves determine all counts. |
| BufferTree.FreeUndoesAlloc | net/net-msg-buffers.c:504-513 | Freeing the buffer just allocated restores every entry of the tree. |
| BufferTree.Chunk.constructor | net/net-msg-buffers.c:252-260 | The tree of a new chunk counts right, with its buffers free and the leaves behind them not. |
| BufferTree.Chunk.AllocRandom | net/net-msg-buffers.c:452-466 | The drawn number picks the j-th free buffer with j below 16 and below the number of free ones; the result is below tot_buffers, only its leaf changes, and the counts stay right. |
| BufferTree.Chunk.AllocNear | net/net-msg-buffers.c:407-451 | The buffer taken is the first free one behind the neighbour, or else the first free one of all; it is below tot_buffers and only its leaf changes. |
| BufferTree.Chunk.SearchNear | net/net-msg-buffers.c:414-446 | The search ends at that leaf, with the path below the turning point, if there is one, already counted down. |
| BufferTree.Chunk.Leftmost | net/net-msg-buffers.c:433-441 | The second way down ends at the first free leaf of its subtree, with one less at each node passed. |
| BufferTree.Chunk.Free | net/net-msg-buffers.c:504-515 | The leaf becomes free, the counts are right again, no other leaf changes. |
| BufferIndex.Telescope | net/net-msg-buffers.c:106-118 | A round of the inverse loop keeps y z = 1 - x modulo 2^32 while x is squared. |
| BufferIndex.Doubles | net/net-msg-buffers.c:106-118 | The power of two that divides x at least doubles with each round, so x reaches 0. |
| BufferIndex.Inverse | net/net-msg-buffers.c:106-118 | The loop ends with the inverse of the odd number modulo 2^32. |
| BufferIndex.Odd | net/net-msg-buffers.c:106-118 | The shift loop splits the stride into a power of two and an odd number. |
| BufferIndex.ChunkIndex.BufferNo | net/net-msg-buffers.c:336-342 | From the offset of buffer n, for every stride and every n in the chunk, it returns n. |
| BufferIndex.Layout | net/net-msg-buffers.c:182-201 | The number is the quotient of unsigned longs assigned to an int; when the space left is not negative, buffers fit the leaves of the tree, and tree, alignment and buffers the space; it is not negative if two buffers fit and the stride is not too small. |
| Gf32.IterInjective | common/crc32.c:670-676 | Multiplication by any power of x is injective. |
| Gf32.TimesIs | common/crc32.c:700-710 | A matrix whose columns are the images of the unit vectors under a power of x acts as that power on every vector. |
| Gf32.MatrixTimes | common/crc32.c:700-710 | The loop that stops at the last set bit computes the full matrix product. |
| Gf32.ProductInverse | common/crc32.c:678-689 | The product of an inverse of x^j and an inverse of x^k is an inverse of x^(j+k). |
| Gf32.Pow | common/crc32.c:691-698 | The k-th power of an inverse of x^j is an inverse of x^(jk). |
| Gf32.XInvIsInverse | common/crc32.c:959-959 | The literal used as the inverse of x is one. |
| Crc32.DoOneIs | common/crc32.c:370-370 | One step through the four tables is four steps of the bitwise checksum. |
| Crc32.Partial | common/crc32.c:367-402 | The sliced loop over any number of bytes equals bit-at-a-time division by the polynomial. |
| Crc32.CrcLinear | common/crc32.c:367-402 | A difference in the starting value appears in the checksum multiplied by x^8 for each byte. |
| Crc32.Concatenation | common/crc32.h:44-46 | The checksum of A followed by B is that of A multiplied by x^(8 times the length of B), added to that of B. |
| Crc32.Residue | common/crc32.h:44-46 | Data with its checksum behind it leaves the same remainder whatever the data. |
| CrcValue.CheckValue | common/crc32.c:367-402 | The checksum of "123456789" is 0xcbf43926, as with every other CRC-32. |
| Crc32.Combiner.Square | common/crc32.c:712-717 | The square of the matrix of x^(2^(n-1)) is that of x^(2^n). |
| Crc32.Combiner.ComputePowers | common/crc32.c:719-730 | All 67 matrices are those of x^(2^n), and the last entry is not 0. |
| Crc32.Combiner.CombineLoop | common/crc32.c:747-757 | The loop over the bits of the length multiplies by x^(8 times the length). |
| Crc32.Combiner.Combine | common/crc32.c:786-799 | From the checksums of any A and B and the length of B it computes that of A followed by B, whether or not the table was set up before. |
| Crc32Repair.Constants | common/crc32.c:954-961 | The bits of the model's modulus and of its inverse of x are the literals of the source. |
| Crc32Repair.Search | common/crc32.c:972-977 | The binary search over the sorted table finds a power of x below r equal to the value exactly when there is one. |
| Crc32Repair.FindCorruptedBit | common/crc32.c:945-985 | For any rounding of the square root: the exponent returned gives the difference, and if any exponent up to the number of bits gives it, one is returned. |
| Crc32Repair.RepairBit | common/crc32.c:987-1005 | The three refusals by range, and otherwise exactly the bit of that exponent flipped. |
| Crc32Repair.FlipCompute | common/crc32.c:987-1005 | Flipping the bit of exponent k changes the checksum by x^k. |
| Crc32Repair.FlippedDiffers | common/crc32.c:1007-1034 | After a flip the difference of checksums is x^k, and flipping again restores the data. |
| Crc32Repair.OnlyExponent | common/crc32.c:945-985 | As long as the order of x is not below the number of bits, the search returns the exponent of the flipped bit and no other. |
| Crc32Repair.CheckAndRepair | common/crc32.c:1007-1034 | Data and stored checksum agree afterwards in every case; 0 means nothing changed, 1 one data bit flipped, 2 one checksum bit; what no single bit explains gives -1, and if the powers of x differ then only that does, a flipped data bit is restored and a flipped checksum bit recomputed. With force_exit, and only then, -1 is a failed assertion instead. |
| CrcOrder.PowersDiffer | common/crc32.c:691-698 | The order of x modulo the program's polynomial is not below 2^32 - 1: no power between gives 1. |
| CrcOrder.CheckAndRepairCrc32 | common/crc32.c:1007-1034 | With the program's polynomial every single wrong bit of data or checksum is repaired, and only what no single bit explains is given up, for all data whose bits can be counted in 32 bits. |
| CrcOrder.AnyFlip | common/crc32.c:1007-1034 | Data with any one bit flipped comes back as it was. |
| Gf32Vectors.MultipliedIs | common/crc32.c:678-689 | The 32 rounds on machine words make the product modulo the polynomial. |
| ExtTables.AddHash | mtproto/mtproto-proxy.c:224-298 | A new entry at the head of its chain keeps every entry in exactly the chain of its key. |
| ExtTables.RemoveHash | mtproto/mtproto-proxy.c:224-298 | Unlinking behind the predecessor removes exactly one entry. |
| ExtTables.NextIdIs | mtproto/mtproto-proxy.c:270-291 | The next id of a slot is larger than its last one and leads back to the slot. |
| ExtTables.AddSlots | mtproto/mtproto-proxy.c:270-291 | The new id was never issued before, and slots, ids and clients agree. |
| ExtTables.RemoveSlots | mtproto/mtproto-proxy.c:224-298 | A slot that is given back keeps its last id, so that ids never repeat. |
| ExtTables.LruInsert | mtproto/mtproto-proxy.c:1879-1893 | The connection is the last of the list, once, and the order of the others is kept. |
| CircularLists.InsertOk | mtproto/mtproto-proxy.c:224-298 | Insertion before the head appends to that list and leaves all other circular lists in the same links alone. |
| CircularLists.DeleteOk | mtproto/mtproto-proxy.c:335-365 | Deletion removes one element from its list and leaves the others alone. |
| ExtConn.AddOk | mtproto/mtproto-proxy.c:224-298 | Adding a connection keeps hash, id table, descriptor lists and LRU list in agreement, under an id never issued before. |
| ExtConn.RemoveOk | mtproto/mtproto-proxy.c:335-365 | So does removing one. |
| ExtConn.SameId | mtproto/mtproto-proxy.c:300-310 | Two live connections never have the same id. |
| ExtConn.OnlyOne | mtproto/mtproto-proxy.c:210-222 | A client descriptor has at most one connection: the one behind the head of its list. |
| ExtConn.Tables.constructor | mtproto/mtproto-proxy.c:193-195 | The tables start empty and in agreement. |
| ExtConn.Tables.Lookup | mtproto/mtproto-proxy.c:224-240 | The chain search finds the connection with the key, and its predecessor, exactly when there is one. |
| ExtConn.Tables.ByInFd | mtproto/mtproto-proxy.c:210-222 | Finds the connection of a client descriptor, or there is none. |
| ExtConn.Tables.ByOutId | mtproto/mtproto-proxy.c:300-310 | Finds the live connection with the id, or there is none. |
| ExtConn.Tables.Create | mtproto/mtproto-proxy.c:312-333 | Exactly one connection is added, for that client, under an id that was never issued. |
| ExtConn.Tables.Remove | mtproto/mtproto-proxy.c:335-365 | Exactly one connection is removed, from all tables, and no issued id changes hands. |
| ExtConn.Tables.ForwardQuery | mtproto/mtproto-proxy.c:1726-1779 | The query is sent exactly if the client has a connection whose middle-end connection is alive, or there is a choice and nothing was dropped before; over that connection under its id in the first case, over the choice under an id never issued before in the second; otherwise the client has no connection left. The id is one of this client descriptor, and of this generation of it exactly if no connection of another generation is left or its middle-end connection is gone; connections of others are untouched. |
| ExtConn.Tables.Answer | mtproto/mtproto-proxy.c:833-908 | An answer or acknowledgement reaches a client exactly if a live connection has its id, came from that sender and the client is alive; and it is then the client for which the id was issued. |
| ExtConn.Tables.CloseExt | mtproto/mtproto-proxy.c:833-908 | Exactly the connection with that id goes. |
| ExtConn.Tables.ClientClosed | mtproto/mtproto-proxy.c:1056-1094 | Exactly the connections of the descriptor go. |
| ExtConn.Tables.OutReady | mtproto/mtproto-proxy.c:972-989 | The list head of a new outbound descriptor is set up, nothing else changes. |
| ExtConn.Tables.OutClosed | mtproto/mtproto-proxy.c:991-1012 | Exactly the connections over that descriptor go, and its list head with them. |
| ExtConn.Tables.LruInsertConn | mtproto/mtproto-proxy.c:1902-1907 | The connection of that descriptor and generation becomes the last of the LRU list; without one nothing changes. |
| TlsStream.Resume | net/net-tcp-connections.c:272-312 | Decoding a first piece and then the rest gives what decoding everything at once gives, wherever the cut is. |
| TlsStream.FeedIsDecode | net/net-tcp-connections.c:272-312 | The same for any number of pieces, with the final state of the decoder. |
| TlsStream.WireDecodes | net/net-tcp-connections.c:244-312 | The records of one plaintext decode to that plaintext, whatever follows. |
| TlsStream.RoundTrip | net/net-tcp-connections.c:244-312 | For any plaintexts and any cutting of the wire bytes the decoder outputs exactly the plaintexts, and nothing is left over. |
| TlsStream.PrefixOnly | net/net-tcp-connections.c:272-312 | As long as only part of the wire bytes has come, the output is a prefix of the plaintexts and the decoder has not failed. |
| TlsStream.Settled | net/net-tcp-connections.c:272-312 | After a call nothing more can be decoded, and what is left is less than a header. |
| TlsStream.OnlyRecords | net/net-tcp-connections.c:272-312 | On any bytes whatever, the decoder outputs the decrypted bodies of the complete records there are and of an incomplete one as much as there is, and it fails exactly if something else than a header follows a record. |
| TlsStream.WireBit | net/net-tcp-connections.c:263-263 | A bit on the wire is the exclusive or of the plain bit and the bit of the keystream at its position. |
| TlsStream.Records | net/net-tcp-connections.c:250-262 | Each record has a header as in section 5.2 of RFC 8446, a length from 1 to 1425 equal to that of its body, and the next record behind it. |
| TlsStream.Connection.EncryptOutput | net/net-tcp-connections.c:244-270 | The whole output is consumed and its records, or its plain ciphertext, are appended. |
| TlsStream.Connection.DecryptInput | net/net-tcp-connections.c:272-312 | The input gets exactly what can be decoded, the decoder is where `Decode` says, and the result is the number of header bytes missing. |
| EventHeap.GreaterIsLater | net/net-events.c:91-95 | The comparison is the order by priority and timestamp exactly when the difference of the priorities is an int. |
| EventHeap.HeadFirst | net/net-events.c:97-120 | In heap order no event comes before the one in the first slot. |
| EventHeap.Rekeyed | net/net-events.c:389-392 | A changed key disturbs the order at one slot only. |
| EventHeap.Room | net/net-events.c:160-177 | While an event is not queued the heap has a free slot. |
| EventHeap.Events.constructor | net/net-events.c:62-63 | The queue starts empty and in order. |
| EventHeap.Events.Pop | net/net-events.c:97-120 | Returns an event that none of the queued ones comes before, removes exactly it, and keeps order and back-pointers. |
| EventHeap.Events.Put | net/net-events.c:160-177 | From a heap out of order at that event only, or without it, it makes an ordered heap with it and the same others. |
| EventHeap.Events.Rekey | net/net-events.c:389-392 | Changing the key of an event in place and putting it again restores order and keeps the set of events. |
| EventHeap.Events.Remove | net/net-events.c:122-158 | Removes exactly that event, or nothing if it is not queued. |
| Ipv6Text.ScanIs | net/net-events.c:833-871 | The scan finds a run of zero groups that ends before the last group, or only zeros to the end. |
| Ipv6Text.ScanLongest | net/net-events.c:833-871 | Of the runs of zeros that end before another group, that of the scan is the longest, and the first of that length. |
| Ipv6Text.LongestLeftOut | net/net-events.c:833-871 | Exactly the groups outside of the longest run are written. |
| Ipv6Text.DottedIs | net/net-events.c:851-853 | The dotted form, read number by number, is the last four bytes of the address in order. |
| Ipv6Text.DecIs | net/net-events.c:851-853 | A decimal number reads as what was printed and has no zero before it. |
| Ipv6Text.CaseBlind | mtproto/mtproto-proxy.c:1155-1213 | A capital hexadecimal letter has the value of the small one. |
| Ipv6Text.MappedIs | net/net-events.c:833-871 | The dotted form is chosen exactly for IPv4-mapped addresses. |
| Ipv6Text.ReadHex | mtproto/mtproto-proxy.c:1155-1213 | The digits printed for a group are read back to its value. |
| Ipv6Text.DottedFails | mtproto/mtproto-proxy.c:1155-1213 | The dotted form is refused for every IPv4 address. |
| Ipv6Text.RoundTrip | mtproto/mtproto-proxy.c:1155-1213 | Parsing the printed form gives the address back, unless it is IPv4-mapped; then parsing fails. |
| Ipv6Text.ConvIpv6 | net/net-events.c:833-871 | The printing loop writes the text of the specification. |
| Ipv6Text.ReadDigits | mtproto/mtproto-proxy.c:1155-1213 | The digit loop reads at most four digits and refuses a fifth. |
| Ipv6Text.SpreadGap | mtproto/mtproto-proxy.c:1155-1213 | The groups behind the gap move to the end, with zeros in between. |
| Ipv6Text.ParseTextIpv6 | mtproto/mtproto-proxy.c:1155-1213 | Accepts exactly the texts the specification parses, returns their length, and writes the 16 bytes of the address. |

## Left out

- Hazard pointers, the garbage and prepared-block queues and recursive allocation of `common/mp-queue.c`: blocks live forever here, so the theorems do not speak of reclamation.
- Memory ordering weaker than sequential consistency, futex sleeping (it is only a delay), wrap-around of 64-bit tickets and ids, and failure of `malloc`.
- JobEngine: one step reads j_flags together with j_status and j_sigclass, or with the class mask of the thread; only the holder of the lock, which is the thread that reads, writes these. The creator's plain writes before the first unlock are part of the first state. Left out are `JF_SIGINT` and the interrupt signal, a stale `j_thread`, changing a class's queue while jobs exist, timers, parents and children of jobs. Assumed: handlers give up only references they own and do not return `JOB_FINISH`, JS_FINISH stays allowed, and its handler frees the job.
- Sublist: is a machine of its own; that the jobs it counts are those the job engine pushes is not stated.
- ChunkLock: `mpq_pop_nw` and the emptiness test are one step each here. What they assume of the queue is the predicate `Serves`, which MpQueueSafety.ServesOne proves of it for one popping thread, as the holder of the chunk is; the two machines are not put together into one.
- RawMsg.Messages: is single-threaded, so the second look of rwm_lock_last_part after locking finds nothing; `RM_TMP` messages are not modelled; structures that are written to (targets of clone, split, create) are not in use before; the order of two writes is changed where nothing can look in between (a reference dropped after the pointer to it is overwritten; first_offset set with the last of the new parts of a push to the front).
- RawMsg.Messages.Split: asks for at least one byte. With 0 the general loop of the source does not run and leaves no part to share.
- RawMsg.Messages.SplitHead: the same.
- RawMsg.Messages.Process: the callback is a function of the bytes handed out before and the block, so what it does to other data is not modelled; RMPF_ADVANCE together with RMPF_TRUNCATE is not a mode (BothFlagsBreak says why).
- RawMsg.Messages.Union: takes two different messages.
- RawMsg.Messages.Create: with rwm_init the bytes are not set; here they are given.
- `rwm_get_block_ptr_bytes`, `rwm_to_tl_string`, `rwm_compare`, the alloc variants of push, and the encryption of raw messages: not modelled.
- `free_msg_buffers_chunk` and the list of chunks: not modelled; one chunk is.
- SSE, CLMUL and crc32-instruction paths, CRC-64 and CRC-32C: the generic CRC-32 carries the algebra.
- Crc32Repair.CheckAndRepair: holds for any modulus; that the powers of x differ is a condition there (`Distinct`), which CrcOrder.PowersDiffer establishes for the program's. The overflow of the int that counts bits, from 2^28 - 4 bytes on, is not modelled.
- Crc32Repair.FindCorruptedBit: holds for any r > 0 in place of the rounded square root, computed without floating point in `Root`.
- ExtConn.Tables: descriptors are assumed not to be used again before their close handler has run; a new query uses in_conn_id 0, as in the source; the random retry for a free slot is a parameter that names the slot found, so the limit on the number of connections that makes it end is not modelled; sending and checking of flags are not modelled.
- TlsStream: the cipher is a keystream indexed by position; both ends have the same one. Handshake and sockets are not modelled.
- EventHeap.Events.Remove: models the call without allow_hole; Put finds a hole only where a changed key left it.
- OpenSSL, sockets, epoll, the HTTP server, the resolver, statistics, options, worker processes and the admin interface: input and output, foreign code or thin glue.
