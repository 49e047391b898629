# Verification of the concurrent protocols and the data structures under them

The C++ servers of this repository rest on a few small concurrent protocols whose safety arguments
are comments. This project restates those protocols in Dafny and proves them, for every number of
threads and every interleaving, and proves the sequential data structures underneath as classes. Run
`dafny verify dfyconfig.toml` to check everything.

A protocol is a step machine. A thread has a program counter, one step is one atomic access (or one
section under a lock), a weak CAS may fail spuriously, and a run is any sequence of steps; `Run`
folds `Step` over it. Fields marked as history are read by no branch. Each protocol has an invariant
that every step keeps (`StepInv`) and every run therefore satisfies (`RunInv`), and a `...Theorems`
module that says what the invariant means. What a call has done when it ends, and that it ends when
its thread runs alone, is stated over traces, the lists of the states that a run goes through
(`...Calls`, `...Service`, `...Progress`, `LockFreeQueueReclaim`). A sequential structure is a class
whose methods are proved against the abstract value they change.

- **Lock-free queue** (`LockFreeQueue`, `LockFreeQueueInvariant`, `LockFreeQueueTheorems`,
  `LockFreeQueueReclaim`, `LockFreeQueueProgress`): the Michael-Scott queue with two hazard pointers
  per thread. Addresses are numbers and the allocator may return a deleted one at once. The machine
  raises `fault` when a deleted node is dereferenced or deleted again.
- **Session lifetime** (`Session`, `SessionInvariant`, `SessionSlots`, `SessionRuns`,
  `SessionTheorems`, `SessionCalls`, `SessionService`, `SessionProgress`, `SessionOneSlot`): the
  packed `control` word, references, the one RELEASE of each life, slot recycling under fresh ids,
  and the send path with its ring, batch and packet counts. A thread is the list of accesses it
  still has to make; what the pending tasks of all threads hold of a slot is tallied and tied to the
  fields. The runs considered (`Proper`) have at most 2^16 slots, at most 2^48 sessions, at most
  2^29 threads, and not exactly one slot. The last condition is needed and is exact (`FaultFreeIff`,
  `RecheckIff`): with a single slot the first handle is 0, which is also the id of a slot that is
  being reset. The server as it stands has 128 slots (`DEFAULT_MAX_CONNECTION`, a compile-time
  constant that nothing overrides), so only a rebuild with one slot meets this case.
- **Player hand-off** (`GroupHandOff`, `GroupHandOffInvariant`, `GroupHandOffRuns`,
  `GroupHandOffTheorems`, `GroupHandOffCalls`, `GroupHandOffProgress`, `GroupHandOffLimit`):
  mailboxes, the four jobs, the login thread that moves a player in six accesses, and disconnects
  that race with it. The invariant looks at one player at a time.
- **Byte stream** (`Encryption`, `EncryptionLaws`, `Packet`, `RingBuffer`, `Framing`,
  `FramingVerdict`): cipher, checksum, packet buffer, circular buffer with scatter segments, and the
  receive loop, which must not depend on how TCP cuts the stream.
- **Memory pool** (`MemoryPool`, `MemoryPoolInvariant`, `MemoryPoolTheorems`, `MemoryPoolCalls`,
  `MemoryPoolBound`): thread-local lists and the tagged global stack, whose batch pop walks the
  chain and then swings the top. Each pop CAS must see fewer than 2^16 changes of the top since its
  walk began (`Timely`), the range of the tag; `MemoryPoolBound` shows that this bound is exact.
- **Sector grid** (`SectorGrid`): the sector lists of the chat server, the neighbour table and the
  choice of who hears a message, for any grid size up to 65535 on each side (a coordinate is a
  16-bit number and -1 means unplaced).

`Common` holds the few definitions that several models share.

Three places where the code does less than one might hope are stated as results, each with a run
that fails and the exact condition. A PACKET left in the login group's queue makes the login thread
load `mGroup` of a player that the shard may already have freed (`LoginCanTouchAFreedPlayer`), and
`LoginMeetsFreedIff` says for which disconnects that can happen. A pool of exactly one session slot
lets an old handle release the next session (`StaleHandleHits`, `FaultFreeIff`, `RecheckIff`). And a
pop of the memory pool that is 2^16 changes late can put a node on the stack that is in use
(`TagWrapBreaksThePool`, `BoundIsExact`).

## Model

| member | source | states |
|---|---|---|
| `LockFreeQueueInvariant.StepInv` | projects/lock-free-queue/LockFreeQueue.h:75-216 | every single atomic access of any thread, in Enqueue, TryDequeue, Protect, Retire or ScanRetired, keeps the chain, the retired list, the hazards and the private nodes consistent |
| `LockFreeQueueTheorems.StepRefines` | projects/lock-free-queue/LockFreeQueue.h:84-131 | each access acts on the abstract queue as the sequential operation it linearizes does, or not at all |
| `LockFreeQueueTheorems.Linearizable` | projects/lock-free-queue/LockFreeQueue.h:75-131 | the link and head CASes of any run, replayed in order on a sequential queue, never remove anything but the front, and leave what the concurrent queue holds |
| `LockFreeQueueTheorems.Fifo` | projects/lock-free-queue/LockFreeQueue.h:75-131 | everything ever linked, in order, is everything dequeued, in order, followed by what is still queued: no loss, no duplicate, no reordering |
| `LockFreeQueueTheorems.EnqueueTakesEffectOnce` | projects/lock-free-queue/LockFreeQueue.h:75-98 | a call of Enqueue that has returned appended its item exactly once, between call and return, whatever other threads did |
| `LockFreeQueueTheorems.TryDequeueIsJustified` | projects/lock-free-queue/LockFreeQueue.h:100-131 | a call that returned true removed exactly the value it stored in `out`; one that returned false removed nothing, and the queue was empty at some moment of that call |
| `LockFreeQueueTheorems.NoUseAfterFree` | projects/lock-free-queue/LockFreeQueue.h:140-216 | no step dereferences or deletes a deleted node, even if the allocator reuses deleted addresses at once |
| `LockFreeQueueTheorems.LinkIsCurrent` | projects/lock-free-queue/LockFreeQueue.h:84-88 | a link CAS succeeds only on the last node, with the tail where this thread validated it: no ABA |
| `LockFreeQueueTheorems.TakeIsCurrent` | projects/lock-free-queue/LockFreeQueue.h:121-124 | a head CAS succeeds only if nobody dequeued since this thread's hazard on the head was validated: no ABA |
| `LockFreeQueueTheorems.SwingIsCurrent` | projects/lock-free-queue/LockFreeQueue.h:87-95 | a guarded tail address that equals mTail is still the same position of the queue, in all three tail CASes |
| `LockFreeQueueTheorems.EachNodeInOnePlace` | projects/lock-free-queue/LockFreeQueue.h:170-216 | an allocated node is the one that some enqueuer is about to link, or on the chain, in the retired list, or held by one thread that unlinked it or is scanning: exactly one of these, and once, so it is deleted at most once |
| `LockFreeQueueTheorems.ChainHoldsContents` | projects/lock-free-queue/LockFreeQueue.h:80-130 | following `next` from mHead meets exactly the queued values; mTail is never before mHead and trails the last node by at most one |
| `LockFreeQueueTheorems.CounterExact` | projects/lock-free-queue/LockFreeQueue.h:89-125 | `size`, modulo 2^64, is the queue length less linked but uncounted enqueues plus unlinked but uncounted dequeues |
| `LockFreeQueueTheorems.ExitTestIsSound` | projects/lock-free-queue/main.cpp:55 | with no Enqueue under way, a zero counter implies an empty queue, so the consumers' exit test loses nothing |
| `LockFreeQueueTheorems.ScanKeepsFew` | projects/lock-free-queue/LockFreeQueue.h:183-216 | a scan pushes back at most two nodes per hazard record |
| `LockFreeQueueReclaim.ScanEvery64Retires` | projects/lock-free-queue/LockFreeQueue.h:170-181 | in every run the number of scans begun is the number of counted retires divided by 64, although mRetireCount wraps at 2^64 |
| `LockFreeQueueReclaim.RetiresFollowTakes` | projects/lock-free-queue/LockFreeQueue.h:121-129 | every node that a head CAS takes off the queue is retired and counted once, but for those still on their way |
| `LockFreeQueueReclaim.ScansKeepUp` | projects/lock-free-queue/LockFreeQueue.h:100-181 | so the number of scans begun is the number of values dequeued, less the uncounted ones, divided by 64 |
| `LockFreeQueueReclaim.ScanSplitsItsList` | projects/lock-free-queue/LockFreeQueue.h:183-216 | a scan, from its exchange to its end and whatever other threads do, deletes or pushes back each node of the list it took, once and nothing else, and pushes a node back exactly if one of its reads of a hazard slot gave that node |
| `LockFreeQueueReclaim.OutsideGuardsNothing` | projects/lock-free-queue/LockFreeQueue.h:149-152 | hazards do not outlive their call: a thread outside the queue or in Retire guards no node |
| `LockFreeQueueProgress.ReturnsAlone` | projects/lock-free-queue/LockFreeQueue.h:75-131 | no thread waits for another: from every state of a run, in the middle of any calls, a thread that runs alone returns within a number of accesses computed from the state |
| `LockFreeQueueProgress.CallReturnsAlone` | projects/lock-free-queue/LockFreeQueue.h:75-216 | a call that runs alone returns: Enqueue within 21 accesses, TryDequeue with its scan within 40 and two per retired node and hazard record |
| `LockFreeQueueProgress.TailCatchesUp` | projects/lock-free-queue/LockFreeQueue.h:84-96 | mTail trails the last node only while a thread stands between linking that node and swinging the tail |
| `SessionRuns.StepInv` | projects/group-echo-server/Server/NetLib/BaseServer.cpp:162-544 | every access of accept thread, workers and callers keeps control words, references, rings, batches, slots and packet counts consistent |
| `SessionTheorems.NoFault` | projects/group-echo-server/Server/NetLib/BaseServer.cpp:512-520 | no run reaches the `__debugbreak` on an underflowing session count, and none touches a packet that went back to its pool |
| `SessionTheorems.RefsAreExact` | projects/group-echo-server/Server/NetLib/Session.h:111-123 | ioCount equals the number of references held by callers, workers and pending I/O, in every reachable state |
| `SessionTheorems.DropNeverBorrows` | projects/group-echo-server/Server/NetLib/BaseServer.cpp:445-457 | the fetch_sub on the whole word lowers ioCount by one and never borrows from the flag half |
| `SessionTheorems.ReleasedOnce` | projects/group-echo-server/Server/NetLib/BaseServer.cpp:445-515 | of each life exactly one RELEASE is decided on, exactly when release is requested and the references have drained; one cleanup follows, with no reference, I/O or sender left, and one OnClientLeave |
| `SessionTheorems.SlotsArePartitioned` | projects/group-echo-server/Server/NetLib/BaseServer.cpp:287-322 | free-stack entries, live slots and slots being created or cleaned partition the pool without duplicates, and mSessionCount is the number of slots that are live or under cleaning before their count-down |
| `SessionTheorems.HandleIsPinned` | projects/group-echo-server/Server/NetLib/BaseServer.cpp:162-194 | while a task past the id re-check is pending, no step of any thread changes the slot's id, life or use |
| `SessionTheorems.CheckIdIsSound` | projects/group-echo-server/Server/NetLib/BaseServer.cpp:168-173 | the re-check passes only for the session that the handle names, never for a slot that is being reset |
| `SessionTheorems.HandleNamesSession` | projects/group-echo-server/Server/NetLib/BaseServer.cpp:162-178 | from a passed re-check on, over any continuation, as long as the calling thread keeps a reference to the slot, the slot is in use under exactly the id of the call and in the same life |
| `SessionTheorems.RetiredForGood` | projects/group-echo-server/Server/NetLib/BaseServer.cpp:311-339 | a handle whose slot has gone on to another id never becomes valid again |
| `SessionTheorems.SendsArePrefix` | projects/group-echo-server/Server/NetLib/BaseServer.cpp:373-443 | what the socket accepted is a prefix of what was put in the send ring; dropped packets and the waiting rest follow in order; at most one batch is on its way |
| `SessionTheorems.SendingEnds` | projects/group-echo-server/Server/NetLib/BaseServer.cpp:405-441 | within a life the accepted packets only grow at the end, and not at all once a send was refused, given up or failed |
| `SessionTheorems.PacketsAreCovered` | projects/group-echo-server/Server/NetLib/Packet.h:93-102 | a packet's count is its places in rings and batches, plus the references callers and tasks still owe, plus exactly those that failed send completions lost |
| `SessionTheorems.PooledPacketIsUnsent` | projects/group-echo-server/Server/NetLib/BaseServer.cpp:762-768 | a packet that is back in the pool is in no send ring and no batch |
| `SessionTheorems.PooledPacketIsUnused` | projects/group-echo-server/Server/NetLib/BaseServer.cpp:230-253 | no thread is about to use, or to give back, a packet that is back in the pool |
| `SessionTheorems.LostForGood` | projects/group-echo-server/Server/NetLib/BaseServer.cpp:650-656 | a packet of a batch whose send completion failed never goes back to the pool, in any continuation |
| `SessionCalls.SendTakesEffectOnce` | projects/group-echo-server/Server/NetLib/BaseServer.cpp:180-253 | when a call of SendPacket is over, whatever other threads did, either one access of it has put the packet in the ring of the very session that the handle names, and nothing else; or it put nothing anywhere, and at some moment the handle was stale, not connected or being released, or that ring was full and release of the session has been requested since |
| `SessionCalls.KickTakesEffect` | projects/group-echo-server/Server/NetLib/BaseServer.cpp:162-178 | when a call of DisConnect is over, release of the very session that the handle names has been requested, or at some moment of the call the handle named no session that takes calls; no packet is put anywhere |
| `SessionService.SendCallsEach` | projects/login-chat-system/ChatServer/ChatingServer/ChatServer.cpp:497-504 | sending a packet to some sessions is one whole call of SendPacket for each of them, in turn, before the caller gives its own reference back |
| `SessionService.KickCalls` | projects/group-echo-server/Server/NetLib/BaseServer.cpp:162-178 | kicking a session is one whole call of DisConnect for its handle |
| `SessionService.SendPacketServesRing` | projects/group-echo-server/Server/NetLib/BaseServer.cpp:230-253 | a call of SendPacket that put its packet has also gone through postSend with one of the outcomes of the next row before it returns |
| `SessionService.PostSendTakesEffect` | projects/group-echo-server/Server/NetLib/BaseServer.cpp:373-443 | a call of postSend makes the socket accept exactly the packets at the front of the ring, at most 32, as they stood when it emptied the ring; unless it found the flag taken, the ring empty or release requested, which it requests itself when WSASend fails |
| `SessionService.CompletionServesRing` | projects/group-echo-server/Server/NetLib/BaseServer.cpp:762-775 | a worker with a successful send completion goes through postSend again, with one of the same outcomes |
| `SessionService.ReceiveGoesOn` | projects/group-echo-server/Server/NetLib/BaseServer.cpp:600-624 | after a successful receive completion the worker has posted the next receive of that session or release of it was requested; after a failed one release is requested |
| `SessionService.AcceptReachesApplication` | projects/group-echo-server/Server/NetLib/BaseServer.cpp:575-622 | an accept that finds a free slot gives the application one new id, which names that slot, and posts its first receive or sees its release requested; only if registering the socket fails, no id is given out and release is requested |
| `SessionProgress.FinishesAlone` | projects/group-echo-server/Server/NetLib/BaseServer.cpp:162-253 | from every state, whatever system calls succeed or fail, a thread that runs alone finishes each call and each completion that it has begun |
| `SessionOneSlot.StaleHandleHits` | projects/group-echo-server/Server/NetLib/Session.h:148-156 | with a pool of one slot the first handle is 0, equals the id of a slot under reset, and an old handle releases the next session before it exists |
| `SessionOneSlot.OneSlotFails` | projects/group-echo-server/Server/NetLib/BaseServer.cpp:512-520 | that run goes on to the session count trap, with a single session ever created |
| `SessionOneSlot.StaleCheckPasses` | projects/group-echo-server/Server/NetLib/BaseServer.cpp:168-173 | in the same run the id re-check of the old handle is about to pass on a slot that is being reset |
| `SessionOneSlot.RecheckIff` | projects/group-echo-server/Server/NetLib/BaseServer.cpp:168-173 | the re-check lets only live sessions through, in all runs, if and only if the pool does not consist of exactly one slot |
| `SessionOneSlot.FaultFreeIff` | projects/group-echo-server/Server/NetLib/BaseServer.cpp:287-339 | the trap is out of reach if and only if the pool does not consist of exactly one slot |
| `GroupHandOffRuns.StepInv` | projects/group-echo-server/Server/GroupServer/Group.h:122-146 | every access of content threads, receivers and disconnects keeps each player's path through the two groups consistent |
| `GroupHandOffTheorems.MailboxOrder` | projects/group-echo-server/Server/GroupServer/LoginGroup.cpp:57-73 | whichever way a disconnect races with the login, the shard is told of a player by GROUP_ENTER, then PACKETs, then at most one LEAVE; the login group by JOIN, PACKETs, LEAVE; no other group hears of it |
| `GroupHandOffTheorems.MailboxIsFifo` | projects/group-echo-server/Server/GroupServer/Group.h:43-57 | a group takes its jobs in the order in which they were posted, across drains |
| `GroupHandOffTheorems.ShardKnowsItsPlayers` | projects/group-echo-server/Server/GroupServer/Group.h:79-106 | a shard never handles a job before the player's entry or after the player was given back: a packet or LEAVE finds the player in mPlayers, an entry finds it absent |
| `GroupHandOffTheorems.LoginOutlivesOnlyTheMoved` | projects/group-echo-server/Server/GroupServer/LoginGroup.cpp:6-11 | the login thread works on a player that was given back only in a PACKET job, after the shard has been stored in mGroup; its next access then posts no job and stores no group |
| `GroupHandOffTheorems.LoginCanTouchAFreedPlayer` | projects/group-echo-server/Server/GroupServer/LoginGroup.cpp:9 | such a run exists: the `mGroup` load of a leftover PACKET can reach a player that the shard has freed |
| `GroupHandOffLimit.LoginMeetsFreedIff` | projects/group-echo-server/Server/GroupServer/GroupServer.cpp:63-82 | the exact condition, at the moment OnClientLeave takes a player off the map: some continuation makes the login thread meet the player after it was freed if and only if the player has moved to its shard while the login group still has a job about it |
| `GroupHandOffTheorems.LeavesOnce` | projects/group-echo-server/Server/GroupServer/GroupServer.cpp:63-82 | a session's one LEAVE is unasked, being posted, queued in one group or carried out, so its player is freed at most once |
| `GroupHandOffTheorems.FreeingGroupFindsPlayer` | projects/group-echo-server/Server/GroupServer/Group.h:132-146 | the group that frees a player finds it in its own mPlayers first and owns it |
| `GroupHandOffTheorems.ForwardsOnce` | projects/group-echo-server/Server/GroupServer/Group.h:134-139 | a LEAVE is forwarded only from the login group to the player's shard, and at most once |
| `GroupHandOffTheorems.CountIsSize` | projects/group-echo-server/Server/GroupServer/Group.h:122-146 | mPlayerCount is the size of mPlayers of every group between its jobs |
| `GroupHandOffTheorems.OneHome` | projects/group-echo-server/Server/GroupServer/LoginGroup.cpp:62-73 | a player is in the mPlayers of both groups only while the login thread is handing it over |
| `GroupHandOffCalls.PacketsAreConserved` | projects/group-echo-server/Server/GroupServer/GroupServer.cpp:84-108 | in every run, the mailboxes of all groups together have been given a packet exactly as often as calls of OnRecv with it, which found its player, have ended |
| `GroupHandOffCalls.RecvDeliversOnce` | projects/group-echo-server/Server/GroupServer/GroupServer.cpp:84-108 | a call of OnRecv that finds its player posts the packet exactly once, to the group that the player was in at a moment of the call |
| `GroupHandOffCalls.JoinDelivers` | projects/group-echo-server/Server/GroupServer/GroupServer.cpp:34-61 | a session that joins is on the map and in the login group, which hears of it first of all by its JOIN |
| `GroupHandOffCalls.LoginMovesPlayer` | projects/group-echo-server/Server/GroupServer/LoginGroup.cpp:36-82 | of the six accesses of a login, whatever comes between them, the second posts GROUP_ENTER to the player's shard and no other posts anything; at the end mGroup is the shard, the player is out of the login group's mPlayers and the thread goes on |
| `GroupHandOffProgress.JobsGetDone` | projects/group-echo-server/Server/GroupServer/Group.h:79-106 | whatever other threads do, once a group has made six accesses for each job that waits for it, and one more, all that had been posted to it is done |
| `GroupHandOffProgress.ShardIsFixed` | projects/group-echo-server/Server/GroupServer/GroupManager.h:21-23 | in every run a player's shard is the one that its session id names modulo the number of shards |
| `Encryption.DecodeEncode` | projects/group-echo-server/Server/NetLib/Encryption.h:16-63 | decoding undoes encoding under the same key, for every buffer |
| `Encryption.EncodeDecode` | projects/group-echo-server/Server/NetLib/Encryption.h:16-63 | encoding undoes decoding, so each key permutes the buffers of each length |
| `Encryption.CheckSumNoticesOneByte` | projects/group-echo-server/Server/NetLib/Encryption.h:7-13 | the checksum stays the same after a change of one byte if and only if the byte stayed the same |
| `Encryption.CalculateCheckSum` | projects/group-echo-server/Server/NetLib/Encryption.h:7-13 | the loop returns the sum modulo 256 of exactly the given part of the buffer |
| `Encryption.Encode` | projects/group-echo-server/Server/NetLib/Encryption.h:16-35 | the in-place loop makes of the given part what the cipher specification says, and touches nothing else |
| `Encryption.Decode` | projects/group-echo-server/Server/NetLib/Encryption.h:38-63 | the same for decoding |
| `EncryptionLaws.XorIsExclusiveOr` | projects/group-echo-server/Server/NetLib/Encryption.h:26-33 | a byte is the exclusive or of two others exactly if each of its bits is set where one of theirs is and the other is not |
| `EncryptionLaws.EncodingIsChaining` | projects/group-echo-server/Server/NetLib/Encryption.h:16-35 | a buffer is the encoding of another under a key exactly if both chains of the cipher hold at every index, with their positions, the key and the constant 0x32 |
| `EncryptionLaws.DecodingIsUnchaining` | projects/group-echo-server/Server/NetLib/Encryption.h:38-63 | the same for decoding |
| `EncryptionLaws.CheckSumIsSum` | projects/group-echo-server/Server/NetLib/Encryption.h:7-13 | the checksum is the arithmetic sum of the bytes modulo 256 |
| `Packet.Packet.constructor` | projects/group-echo-server/Server/NetLib/Packet.h:55-67 | a packet after Init is empty and not encoded; its storage is whatever it was |
| `Packet.Packet.PutValue` | projects/group-echo-server/Server/NetLib/Packet.h:118-129 | a value is appended whole or not at all, and is then unread behind what was unread before |
| `Packet.Packet.GetValue` | projects/group-echo-server/Server/NetLib/Packet.h:132-144 | a value is read whole, from the front of the unread bytes, or nothing moves |
| `Packet.Packet.PutData` | projects/group-echo-server/Server/NetLib/Packet.h:172-187 | as much of the source as fits is appended |
| `Packet.Packet.GetData` | projects/group-echo-server/Server/NetLib/Packet.h:156-170 | as many bytes as asked for, or all there are, leave the front of the unread bytes |
| `Packet.Packet.SetDataSize` | projects/group-echo-server/Server/NetLib/Packet.h:76-82 | what is written is cut or extended to the size, and sizes outside the buffer are ignored |
| `Packet.Packet.MoveReadPos` | projects/group-echo-server/Server/NetLib/Packet.h:146-152 | bytes are skipped, or read again after a move back; moves outside the written bytes are ignored |
| `RingBuffer.RingBuffer.constructor` | projects/group-echo-server/Server/NetLib/RingBuffer.h:20-25 | a new buffer is an empty sequence with room for its capacity |
| `RingBuffer.RingBuffer.GetUseSize` | projects/group-echo-server/Server/NetLib/RingBuffer.h:55-57 | the modular difference of the two indices is the length of the contents, for every wrap position |
| `RingBuffer.RingBuffer.GetFreeSize` | projects/group-echo-server/Server/NetLib/RingBuffer.h:62-64 | the free size is the capacity less the contents |
| `RingBuffer.RingBuffer.Enqueue` | projects/group-echo-server/Server/NetLib/RingBuffer.h:69-88 | as much as fits is appended, across the wrap |
| `RingBuffer.RingBuffer.EnqueueItem` | projects/group-echo-server/Server/NetLib/RingBuffer.h:90-95 | an item is appended unless the buffer is full |
| `RingBuffer.RingBuffer.Dequeue` | projects/group-echo-server/Server/NetLib/RingBuffer.h:100-119 | as much as there is leaves the front and arrives in the target, across the wrap, and nothing else of the target changes |
| `RingBuffer.RingBuffer.DequeueItem` | projects/group-echo-server/Server/NetLib/RingBuffer.h:121-127 | the item at the front is removed unless the buffer is empty |
| `RingBuffer.RingBuffer.Peek` | projects/group-echo-server/Server/NetLib/RingBuffer.h:132-147 | the same bytes as Dequeue, with the buffer unchanged |
| `RingBuffer.RingBuffer.ClearBuffer` | projects/group-echo-server/Server/NetLib/RingBuffer.h:150-153 | the contents are empty afterwards |
| `RingBuffer.RingBuffer.MoveRear` | projects/group-echo-server/Server/NetLib/RingBuffer.h:193-199 | the next free cells become the end of the contents with what is in them, unless there are too few |
| `RingBuffer.RingBuffer.MoveFront` | projects/group-echo-server/Server/NetLib/RingBuffer.h:201-207 | items leave the front, unless there are too few |
| `RingBuffer.RingBuffer.DirectEnqueueSize` | projects/group-echo-server/Server/NetLib/RingBuffer.h:160-175 | a contiguous run of free cells that is never empty while there is room, and stops short of the free size only at the end of the array |
| `RingBuffer.RingBuffer.DirectDequeueSize` | projects/group-echo-server/Server/NetLib/RingBuffer.h:177-189 | the same for the contents |
| `RingBuffer.RingBuffer.GetEnqueueSegments` | projects/group-echo-server/Server/NetLib/RingBuffer.h:228-264 | in-bounds segments that cover exactly the free cells, in the order in which the rear passes them |
| `RingBuffer.RingBuffer.GetDequeueSegments` | projects/group-echo-server/Server/NetLib/RingBuffer.h:267-305 | in-bounds segments whose concatenation is the contents |
| `RingBuffer.RingBuffer.Receive` | projects/group-echo-server/Server/NetLib/BaseServer.cpp:349-361 | filling any number of bytes across the segments and moving the rear by it appends exactly those bytes |
| `Framing.Seal` | projects/group-echo-server/Server/NetLib/BaseServer.cpp:196-227 | SendPacket turns a packet into the frame of its payload under the key, once; a packet that is already encoded is left alone, and one shorter than its header gets a wrapped length and checksum 0 |
| `Framing.SealedIsReceived` | projects/group-echo-server/Server/NetLib/BaseServer.cpp:196-227 | whatever packet is sent: with a payload, the receiver gets exactly that payload and goes on behind it; without one, the receiver closes the session |
| `Framing.ParseAppend` | projects/group-echo-server/Server/NetLib/BaseServer.cpp:675-748 | parsing what has arrived and later the leftover with what follows finds the same frames and errors as parsing all at once |
| `Framing.ChunksDoNotMatter` | projects/group-echo-server/Server/NetLib/BaseServer.cpp:671-748 | any split of the byte stream into receive completions gives the same payloads, leftover and verdict |
| `Framing.ParseStream` | projects/group-echo-server/Server/NetLib/BaseServer.cpp:675-748 | a stream of frames parses to exactly their payloads, in order, with no error and nothing left |
| `Framing.RoundTrip` | projects/group-echo-server/Server/NetLib/BaseServer.cpp:197-227 | for any payloads of legal length, any keys and any split of the stream, the receiving side emits exactly those payloads in order |
| `Framing.LeftIsShort` | projects/group-echo-server/Server/NetLib/BaseServer.cpp:710-712 | what a loop without error leaves is shorter than one full frame |
| `FramingVerdict.DeliverIsVerdict` | projects/group-echo-server/Server/NetLib/BaseServer.cpp:675-748 | for any split of a stream of good frames and a tail: exactly the payloads before the tail are delivered, and an error is reported exactly if the tail starts with a wrong code byte, a length that is 0, above 507 or too large for the ring, or a whole frame with a wrong checksum; all conditions are on bytes |
| `FramingVerdict.ErrorIffBad` | projects/group-echo-server/Server/NetLib/BaseServer.cpp:675-748 | an error is reported for the chunks exactly if their stream is some good frames followed by such a tail |
| `FramingVerdict.FrameIsGood` | projects/group-echo-server/Server/NetLib/BaseServer.cpp:197-227 | what SendPacket makes of a payload of legal length is such a good frame |
| `Framing.PeekHeader` | projects/group-echo-server/Server/NetLib/BaseServer.cpp:680-683 | the code and the little-endian length at the front are read and nothing is consumed |
| `Framing.TakeFrame` | projects/group-echo-server/Server/NetLib/BaseServer.cpp:714-747 | one round takes exactly one frame off the ring and hands over its payload if and only if the checksum is right |
| `Framing.ReceiveLoop` | projects/group-echo-server/Server/NetLib/BaseServer.cpp:673-748 | the loop terminates on every buffer content and finds what the specification finds |
| `Framing.OnReceived` | projects/group-echo-server/Server/NetLib/BaseServer.cpp:671-759 | after a completion without error the receive ring has a free byte, so postRecv's no-segment branch cannot be reached |
| `MemoryPoolInvariant.StepInv` | projects/group-echo-server/Server/NetLib/MemoryPoolTLS.h:124-258 | every access of Alloc, Free, PushToGlobal and PopFromGlobal keeps lists, owners and counters consistent, if a pop CAS sees fewer than 2^16 top changes |
| `MemoryPoolTheorems.PopIsExact` | projects/group-echo-server/Server/NetLib/MemoryPoolTLS.h:356-399 | a successful pop removes exactly the first actualCount nodes of the stack as it stands at the CAS, as many as wanted or all |
| `MemoryPoolTheorems.BatchIsClosed` | projects/group-echo-server/Server/NetLib/MemoryPoolTLS.h:391-397 | the batch handed to the local list is exactly the popped nodes and ends in a null link |
| `MemoryPoolTheorems.EveryNodeInOnePlace` | projects/group-echo-server/Server/NetLib/MemoryPoolTLS.h:124-258 | every node is in use, in one local list, private to one thread or on the global stack: exactly one of these, and once |
| `MemoryPoolTheorems.HandedOutOnce` | projects/group-echo-server/Server/NetLib/MemoryPoolTLS.h:124-197 | every step that hands a node out, from the local list, after a batch pop or after ReserveNodes, hands out one of the caller's own nodes or a new one, never a node in use, and keeps no trace of it |
| `MemoryPoolCalls.AllocGivesOne` | projects/group-echo-server/Server/NetLib/MemoryPoolTLS.h:124-197 | whatever other threads do, the last access of a call of Alloc hands out exactly one node, and no other access of it any |
| `MemoryPoolCalls.FreeTakesBack` | projects/group-echo-server/Server/NetLib/MemoryPoolTLS.h:200-229 | with at most 200 nodes in the thread's own list Free puts the node in front of it at once, otherwise one access of the call pushes it on the global stack; it hands out nothing |
| `MemoryPoolCalls.ReturnsAlone` | projects/group-echo-server/Server/NetLib/MemoryPoolTLS.h:124-229 | from every state of a run a thread that runs alone returns within a number of accesses computed from the state |
| `MemoryPoolCalls.CallReturnsAlone` | projects/group-echo-server/Server/NetLib/MemoryPoolTLS.h:124-229 | a call of Alloc or Free that runs alone returns within 207 accesses |
| `MemoryPoolTheorems.LocalListIsExact` | projects/group-echo-server/Server/NetLib/MemoryPoolTLS.h:200-229 | local.top leads through exactly the thread's own free nodes and local.count is their number |
| `MemoryPoolTheorems.CountersAreExact` | projects/group-echo-server/Server/NetLib/MemoryPoolTLS.h:349-394 | _availableCount, mUseCount and mAllocCount are the true numbers up to what threads between two accesses have not counted |
| `MemoryPoolBound.TagWrapBreaksThePool` | projects/group-echo-server/Server/NetLib/MemoryPoolTLS.h:382-393 | in a run of three threads from the start of the pool, a pop CAS that comes 2^16 changes after its walk began succeeds and puts a node on the stack that a caller uses |
| `MemoryPoolBound.BoundIsExact` | projects/group-echo-server/Server/NetLib/MemoryPoolTLS.h:342-399 | for every n: all pops take exactly the front of the stack, in all runs in which each pop CAS comes at most n changes after its walk began, if and only if n is below 2^16 |
| `SectorGrid.ChatServer.FillAround` | projects/login-chat-system/ChatServer/ChatingServer/ChatServer.cpp:380-397 | the neighbour list of a sector has, each once, the grid sectors within Chebyshev distance one, and never more than nine |
| `SectorGrid.ChatServer.InitSectorAroundTable` | projects/login-chat-system/ChatServer/ChatingServer/ChatServer.cpp:374-400 | the whole table has that property, for any grid size |
| `SectorGrid.SwapEraseTakesOne` | projects/login-chat-system/ChatServer/ChatingServer/ChatServer.cpp:434-439 | the swap with the last and the pop remove one occurrence of the player and keep every other |
| `SectorGrid.ChatServer.ErasePlayerFromSector` | projects/login-chat-system/ChatServer/ChatingServer/ChatServer.cpp:425-441 | exactly the player's own sector list loses the player; no other list changes |
| `SectorGrid.ChatServer.MovePlayerSector` | projects/login-chat-system/ChatServer/ChatingServer/ChatServer.cpp:406-423 | the player leaves its old list and ends its new one; out-of-range and no-op moves change nothing; the index stays exact |
| `SectorGrid.ChatServer.SectorMove` | projects/login-chat-system/ChatServer/ChatingServer/ChatServer.cpp:259-298 | a move happens if and only if account and sector are right; the result is true if and only if it happened and the answer was sent; a refused one moves nothing |
| `SectorGrid.ChatServer.OnClientJoin` | projects/login-chat-system/ChatServer/ChatingServer/ChatServer.cpp:39-60 | a new session gets an unplaced player; a second one under the same id changes nothing |
| `SectorGrid.ChatServer.OnClientLeave` | projects/login-chat-system/ChatServer/ChatingServer/ChatServer.cpp:62-84 | the player leaves map and sector and nobody else is touched |
| `SectorGrid.ChatServer.Login` | projects/login-chat-system/ChatServer/ChatingServer/ChatServer.cpp:175-257 | a valid login sets account and login flag once, a second or an invalid one changes nothing; another session logged in under the account is disconnected if and only if there is one; the index stays exact |
| `SectorGrid.ChatServer.ReserveDeletePlayer` | projects/login-chat-system/ChatServer/ChatingServer/ChatServer.cpp:444-449 | marking a player for deletion keeps the index exact |
| `SectorGrid.ListedOnceAtHome` | projects/login-chat-system/ChatServer/ChatingServer/ChatServer.cpp:406-441 | in every consistent state a connected player is listed once in the sector it stands in and nowhere else |
| `SectorGrid.ChatServer.Broadcast` | projects/login-chat-system/ChatServer/ChatingServer/ChatServer.cpp:463-504 | the collected ids are, each once, those of the logged-in, not deleted, placed players within Chebyshev distance one, found by filtering all players |

## Left out

- Weak memory ordering: all machines are sequentially consistent; the acquire and release arguments of the code are not examined.
- Windows sockets, IOCP, SRW locks and critical sections as code: a completion queue is a counter per slot and kind, a lock section is one step (or, for the player map, a reader or writer that excludes others), and system calls succeed or fail freely.
- CAS loops of `IncreaseIoCount`, `TrySetReleaseFlag`, the cleanup claim, `GetHazardRecord` and the pushes to `mRetired`: one step at the deciding access, which may fail spuriously and be tried again where the loop is in the session protocol.
- `requestRelease` followed by the `decreaseSessionIoCount` of the same caller: the two accesses to `control` stay separate steps, but disconnect statistics, `CancelIoEx` and `closesocket` are not modelled.
- Callbacks that call back into the server (OnRecv, OnClientJoin, OnClientLeave) are calls of other threads, which allows more interleavings than the nested calls do.
- Session handles: callers use the ids that OnClientJoin gave out; guessing an id that was never given out is not covered.
- Liveness under interference: threads are shown to return when they run alone, and groups to do their jobs when they get turns, but no fairness between threads is assumed. "Every queued packet is eventually sent" is not claimed. Between the last look at the ring and the store of 0 to `sendFlag` another sender can put a packet, see the flag still set and return.
- `SessionTheorems.PacketsAreCovered`: failed send completions skip `SubRef`, so the count has the term `leaked`, and `SessionTheorems.LostForGood` says that such a packet never goes back to its pool.
- `GroupHandOffTheorems.LoginOutlivesOnlyTheMoved`: players are named by session ids that are never issued twice, so what a load from a recycled Player object would read is not modelled.
- OnClientLeave of the group server reads `mGroup` once more after the lock; that second read is left out, as are packet references, heartbeats and mWillDelete of the group server.
- `MemoryPoolTheorems.PopIsExact`: `Shrink` does not run and batches stay empty, because nothing calls `PushToMyBatch`; the null test and the step of the walk (lines 377-378) are one read of `nextNode`, which is not atomic in the code.
- Allocation failure, destructors, thread and pool limits of MemoryPoolTLS, and the queue's destructor.
- `Packet.Packet.SetDataSize`: the asserts of the debug build are taken as the early returns behind them; the same holds for every other `assert(false)` of Packet.
- `RingBuffer.RingBuffer.Enqueue`: `memcpy` counts bytes, so Enqueue, Dequeue and Peek mean what they say only for one-byte items, which is how they are used; null arguments, Resize and the index getters are left out, and so is the overload of GetDequeueSegments for packet pointers, which nothing calls.
- `Framing.Seal`: the double-checked lock around the encoding and the random key; the key is an argument.
- `Framing.ReceiveLoop`: the packet pool always has a packet, and OnRecv is the list of payloads it is called with.
- `SectorGrid.ChatServer.MovePlayerSector`: moves, leaves and broadcasts are whole operations; their interleaving between the two sector locks is not modelled.
- `SectorGrid.ChatServer.SectorMove`: the content of the response packet; whether it can be made and sent is an argument.
- `SectorGrid.ChatServer.Login`: names, keys, the checks of the packet and the Redis lookup; whether they pass is an argument, as is whether the response can be sent.
- `LockFreeQueueTheorems.ExitTestIsSound`: needs the queue and the threads together to stay below 2^64, where the counter wraps.
- LanClient, the LoginServer variant of BaseServer and the copies of the NetLib headers: the same ideas with other details.
- LockFreeMemoryPool: its concurrency is that of the Windows SLIST, which is not part of this model.
- DBServer, DBConnecter, RedisConnecter, MonitorClient, ProcessMonitor, PerfProfiler, Log, CrashDump and console code.
