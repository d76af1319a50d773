# DelegateMQ and the self-test state machines: verified models

This project models the parts of the repository whose correctness depends on order, interleaving or
bookkeeping, and proves what they promise. Each file is one module.

| file | what it models |
|---|---|
| Reliability.dfy | TransportMonitor, RetryMonitor and the sequence counter of Dispatcher as classes, each public call run to its end before the next, which is how one network thread uses them |
| RetryProtocol.dfy, PacketFate.dfy | the same two monitors on several threads: a step system whose steps are the lock regions and the physical sends, over a network that loses, repeats and reorders packets; and what becomes of one packet in it |
| DuplicateFilter.dfy, Participant.dfy | the receiver: the ring of sequence numbers, and packet processing with one ring for each remote id |
| AsyncWait.dfy | the blocking cross-thread call: source, destination and timeout, step by step, over many calls through one delegate with stale messages left in the queue |
| BlockSize.dfy, XAllocator.dfy, BucketRace.dfy, HeapRace.dfy | the fixed-block allocator: rounding of sizes, free lists threaded through block headers, buckets, threads racing for a bucket, and the lock regions of allocation and release interleaved |
| Crc16.dfy | the table form and the bit form of the CRC |
| Multicast.dfy | the multicast delegate that its own callbacks change while it broadcasts |
| DelegateQueue.dfy | the two-lane queue with one counting semaphore, alone and with many senders and one receiver |
| Timers.dfy | the intrusive timer list and the deadlines |
| StateEngine.dfy | the state machine engine for any state map, its event data, guards and hooks |
| SelfTest.dfy | the engine, centrifuge and pressure machines as state maps of that engine, and the system of the three over one thread queue |
| Wrappers.dfy | optional values, and sizes of sets |

Three forms are used. What one thread does by updating fields is a class whose methods state the whole
new state, by a specification function where there is one; what that function promises is proved beside
it. What several threads do is a step system: a datatype for the shared state, a function for each step,
and theorems about every run, that is about every interleaving. What is a law about values (CRC,
rounding, deadlines, lists of edits) is a function with lemmas.

The surroundings are parameters. The clock may do anything between two readings unless a proof says that it
stands still (Reliability) or does not go back (Timers); ITransport::Send returns any result and does not call
Add itself; a delegate is a token with equality; the heap may be exhausted at any allocation. Capacities are
constants of the objects rather than the values of DelegateMQ/delegate/DelegateMQConfig_Default.h, so the
theorems hold for every configuration in which they are positive: 16 expired entries in a pass, 8 remembered sequence numbers, 3 retries,
100 pending messages, 15 buckets. Block headers are 16 bytes and size_t has 64 bits, as on a 64-bit build
without safeguards. A failed assertion is an outcome (`fault`, `faulted`, `Faulted`, `Failed`), and where the
code should not reach it that is proved.

## Findings

* A packet can be forgotten. The result of the Add that re-registers a message which timed out during
  its first send is ignored (DelegateMQ/extras/util/RetryMonitor.h:210-213). If the cap refuses it, the
  stored packet is never acknowledged, retried or removed. `RetryProtocol.CoveredIff` shows that this is
  the only step that leaves a packet in the store with nobody looking after it, `RetryProtocol.LeakHappens`
  gives a run in which it happens, and `RetryProtocol.RoomForAll` shows that it cannot happen while no more
  keys are in use than the monitor has room for.
* A packet can also be dropped from the store. A send whose key is still pending, after the sequence number
  has wrapped, overwrites the stored packet of the older message before Add refuses it
  (DelegateMQ/extras/util/RetryMonitor.h:97-110), and then erases it: the older message is not retried any
  more. `RetryProtocol.WrappedKeyForgets` gives the run. `PacketFate.LeavesIff` says exactly when a packet
  leaves the store: acknowledged, exhausted, refused or failed, or its key used again. With a key of its own
  only its own call, retries and acknowledgement can do that: `PacketFate.FreshPacketKept`.
* The comment at DelegateMQ/extras/util/RetryMonitor.h:115-117 says that Add was never called when Send
  fails. It was (line 105): the entry is erased from the retry store but its key stays pending, and its
  timeout is reported later and ignored. The model follows the code.
* The documentation of the blocking call says that the target function is not invoked if the timeout of
  the caller expires (DelegateMQ/delegate/DelegateAsyncWait.h:26-27), and that IsSuccess is false if it
  expired before the target could be invoked (lines 548-550). The target may be running when the timeout
  fires; then the caller waits for it to end and reports a failure although it completed.
  `AsyncWait.FailedThoughRun` gives the run. `AsyncWait.RunsIffCheckedInTime` says when the target is not
  invoked: exactly if the source clears its flag before the destination looks at it. What success means is
  in `AsyncWait.SuccessMeans` and `AsyncWait.SucceedsUnlessGivenUp`.
* Move assignment from a container that holds nulled entries leaves these in an idle container, which
  has no purge pending. `Multicast.MulticastDelegate.MoveAssign` states exactly when the result is tidy. Such
  a container exists only while it is itself broadcasting, so that the assignment has to come from one of
  its own callbacks; what the broadcast does afterwards is not part of this model (see below).
* The size computation overflows for requests above 2^63 - 16 bytes: `BlockSize.HoldsRequestIff`. Where it
  comes out below the size of a pointer (`BucketRace.SmallIff`), every call makes a bucket of its own.
* ProcessTimers fails its assertion when 16 timers have expired and another timer follows in the list,
  expired or not. It cannot with up to 16 enabled timers; it does for certain if 16 timers other than the
  last are due when it is called, and exactly then if the clock stands still: `Timers.FaultCondition`.
* The centrifuge leaves its speed at -1, so its guard refuses every later start: the test completes at
  most once in the life of the program (`SelfTest.CompletesAtMostOnce`, `SelfTest.NeverRunsAgain`).
* After a cancel and a new start the engine test can complete on the completion of an earlier pressure test,
  without any centrifuge test: `SelfTest.StaleCompletion` gives the run, `SelfTest.EngineCompletesOnItsOwn`
  says exactly when.
* DrainAndDelete leaves the doorbell count behind, so that later takes may find no message; the code
  destroys the queue next: `DelegateQueue.FreeRTOSDelegateQueue.DrainAndDelete`.

## Model

| member | source | states |
|---|---|---|
| Reliability.TransportMonitor.Add | DelegateMQ/extras/util/TransportMonitor.h:70-98 | accepts exactly when there is room and the key is not pending; the whole new state; every accepted Add stays balanced by a status or a pending entry |
| Reliability.TransportMonitor.TakeExpired | DelegateMQ/extras/util/TransportMonitor.h:156-185 | moves out the first maxExpired expired entries in key order and nothing else |
| Reliability.TransportMonitor.Scan | DelegateMQ/extras/util/TransportMonitor.h:163-184 | the loop over the sorted map yields exactly that batch |
| Reliability.TransportMonitor.Remove | DelegateMQ/extras/util/TransportMonitor.h:106-140 | with a remote id the acknowledgement takes exactly the entry of id and number if it is pending, without one the first in key order with the number; it reports it once, and its packet leaves the retry store |
| Reliability.TransportMonitor.Process | DelegateMQ/extras/util/TransportMonitor.h:148-200 | terminates for every clock and any number of batches, keeps "stored implies pending and sent" and the balance of statuses; when the clock stands still every entry older than the timeout times out exactly once, the others stay, and none that old is left |
| Reliability.TransportMonitor.Pass | DelegateMQ/extras/util/TransportMonitor.h:152-197 | one pass lowers the number of reports still possible by its batch; it takes only expired entries, all of them unless the batch is full |
| Reliability.CreditDrops | DelegateMQ/extras/util/RetryMonitor.h:163-188 | the sum over tracked keys of attempts left plus one falls with each timeout reported |
| Reliability.TimeoutStep | DelegateMQ/extras/util/RetryMonitor.h:159-214 | a reported timeout keeps accepted Adds equal to reports plus pending, and stored keys pending, also while other timeouts of the batch are unreported |
| Reliability.RetryMonitor.SendWithRetry | DelegateMQ/extras/util/RetryMonitor.h:84-134 | the outcome for accepted, refused and failed sends, and that the invariants hold afterwards |
| Reliability.RetryMonitor.OnStatusChanged | DelegateMQ/extras/util/RetryMonitor.h:137-214 | the new store, pending map and transmission log for each status and each state of the entry; a retry sends the stored packet with its original header |
| Reliability.RetryMonitor.Retry | DelegateMQ/extras/util/RetryMonitor.h:191-208 | one attempt is used up by a retry that the monitor accepts, the entry is dropped if it does not |
| Reliability.StartAllowed | DelegateMQ/extras/util/RetryMonitor.h:93-97 | a call pays for its first send and its retries |
| Reliability.RetryAllowed | DelegateMQ/extras/util/RetryMonitor.h:163-171 | a retry is paid for by the attempt it takes off, so sends stay within 1 + maxRetries for each call |
| Reliability.ExactRetries | DelegateMQ/extras/util/RetryMonitor.h:163-188 | without an acknowledgement a sent packet with m attempts is sent again at each of its first m timeouts, at no later one, and dropped at the next |
| Reliability.Dispatcher.Dispatch | DelegateMQ/extras/dispatcher/Dispatcher.h:48-68 | the packet carries the next number; without a transport nothing is sent and no number is used |
| Reliability.CounterRepeats | DelegateMQ/extras/dispatcher/Dispatcher.h:54-54 | the process-wide counter repeats a number exactly after multiples of 65536 dispatches |
| RetryProtocol.HonestStep | DelegateMQ/extras/util/RetryMonitor.h:93-98 | in every interleaving, whatever is stored, retried, sent or delivered is a submitted packet, unchanged |
| RetryProtocol.PaidStep | DelegateMQ/extras/util/RetryMonitor.h:163-171 | each lock region and send keeps sends made, owed and allowed within the budget |
| RetryProtocol.BalancedStep | DelegateMQ/extras/util/TransportMonitor.h:106-191 | each step keeps accepted Adds equal to callbacks run, callbacks queued and pending entries |
| RetryProtocol.CoveredIff | DelegateMQ/extras/util/RetryMonitor.h:174-213 | a step leaves every stored packet pending or in the hands of some thread, if and only if it is not a re-registration refused by the cap with nobody else looking after the packet |
| RetryProtocol.NoneForgotten | DelegateMQ/extras/util/RetryMonitor.h:84-214 | over whole runs without such a step every packet that is in the store is pending or in the hands of some thread |
| RetryProtocol.RoomForAll | DelegateMQ/extras/util/TransportMonitor.h:77-78 | no run has such a step while no more keys are in use than the cap |
| RetryProtocol.WrappedKeyForgets | DelegateMQ/extras/util/RetryMonitor.h:97-110 | a run of two messages with one key: nothing leaks, all calls return, and the first is sent and pending with nothing left to retry |
| RetryProtocol.LeakHappens | DelegateMQ/extras/util/RetryMonitor.h:210-213 | a run of two messages and a cap of one that ends with a packet stored, sent and never looked at again |
| RetryProtocol.SettlesTracked | DelegateMQ/extras/util/RetryMonitor.h:84-214 | when all calls have returned, what the serialized monitors keep between calls holds: stored implies pending and sent |
| RetryProtocol.SendBound | DelegateMQ/extras/util/RetryMonitor.h:93-171 | in every interleaving a message with a fresh key is sent at most 1 + maxRetries times |
| RetryProtocol.OneStatusEach | DelegateMQ/extras/util/TransportMonitor.h:70-191 | never more statuses than accepted Adds; with nothing under way they differ exactly by the pending entries |
| RetryProtocol.EndToEnd | DelegateMQ/extras/databus/Participant.h:73-101 | senders, network and receiver together, in every run: a handler runs only for submitted packets, and twice for one of them only if historySize others of its id ran it in between |
| RetryProtocol.OncePerNumber | DelegateMQ/extras/databus/Participant.h:324-341 | so each number that arrives on an id with a handler runs it exactly once while at most historySize numbers are used on the id |
| PacketFate.LeavesIff | DelegateMQ/extras/util/RetryMonitor.h:93-206 | a step takes a packet out of the store if and only if it reports its acknowledgement, or its timeout with no attempts left, or erases it after a refusal or a failed send, or begins a call with the same key and another packet |
| PacketFate.FreshPacketKept | DelegateMQ/extras/util/RetryMonitor.h:84-214 | in every run, a packet whose key no other call uses is in the store, unchanged, if and only if no such step has taken it out, and nothing else is sent with its key; in runs without the leaking step it is then looked after |
| PacketFate.ExactSends | DelegateMQ/extras/util/RetryMonitor.h:163-188 | in every run, while such a packet is stored, sends made, under way, still allowed and cancelled by a refusal are exactly 1 + maxRetries, not fewer; and so many are made or under way when it is exhausted |
| PacketFate.EachLossHasItsCause | DelegateMQ/extras/util/RetryMonitor.h:84-214 | with no call under way: the packet is stored exactly if there was no acknowledgement, failed send or full map for it and it is not exhausted; each reason for leaving has its own cause |
| PacketFate.SentOutInFull | DelegateMQ/extras/util/RetryMonitor.h:84-214 | with room for the keys in use no such packet is ever refused: without acknowledgement and failed send it leaves only after exactly 1 + maxRetries sends |
| PacketFate.SendsAreMade | DelegateMQ/extras/util/RetryMonitor.h:112-112 | the sends counted are the packets on the wire |
| PacketFate.NetworkIsFree | DelegateMQ/extras/databus/Participant.h:73-73 | the network may deliver any copies of what was sent in any order |
| DuplicateFilter.SeqHistory.IsDuplicate | DelegateMQ/extras/databus/Participant.h:332-340 | a number is a duplicate exactly if it is among the last size accepted ones; otherwise it is accepted and the ring holds exactly the last ones again |
| DuplicateFilter.AcceptKeepsSpaced | DelegateMQ/extras/databus/Participant.h:332-340 | an arrival keeps the numbers in the ring distinct |
| DuplicateFilter.RunSpaced | DelegateMQ/extras/databus/Participant.h:332-340 | so after any arrivals |
| DuplicateFilter.DroppedIff | DelegateMQ/extras/databus/Participant.h:85-91 | over any arrivals: one is dropped if and only if an earlier copy passed and fewer than n others passed since |
| DuplicateFilter.AtMostOnce | DelegateMQ/extras/databus/Participant.h:85-91 | two copies both pass only if n others passed in between |
| DuplicateFilter.ExactlyOnceWithinWindow | DelegateMQ/extras/databus/Participant.h:324-341 | with at most n numbers in use every number that arrives passes exactly once |
| Participant.Participant.ProcessIncoming | DelegateMQ/extras/databus/Participant.h:62-105 | result, handler invocations, error signal with its latch, and histories for receive errors, wrong markers, unknown ids, acknowledgements, duplicates and new packets |
| Participant.AcceptedIsRun | DelegateMQ/extras/databus/Participant.h:85-91 | ids are filtered independently of each other |
| Participant.RunsIff | DelegateMQ/extras/databus/Participant.h:75-99 | over any arrivals: a packet runs its handler if and only if it is well formed, a handler is registered, and, unless it is an acknowledgement, no copy of it ran with fewer than historySize others of its id since; nothing new is dropped |
| Participant.PacketAtMostOnce | DelegateMQ/extras/databus/Participant.h:85-101 | two copies of a packet both run the handler only if historySize other packets of the id ran it in between |
| Participant.EachRunsOnce | DelegateMQ/extras/databus/Participant.h:324-341 | with at most historySize numbers in use on an id each number that arrives runs its handler exactly once |
| AsyncWait.StepSound | DelegateMQ/delegate/DelegateAsyncWait.h:508-546 | every access of source, destination and timeout keeps the handshake of every call |
| AsyncWait.RunsInsideTheCall | DelegateMQ/delegate/DelegateAsyncWait.h:515-541 | in every interleaving the target runs only while its caller is inside operator(), and at most once for each call |
| AsyncWait.SuccessMeans | DelegateMQ/delegate/DelegateAsyncWait.h:253-262 | success is reported exactly if the source was woken and the one run ended without throwing; the caller has the value of that run |
| AsyncWait.ReturnedIsFinal | DelegateMQ/delegate/DelegateAsyncWait.h:518-519 | stale messages of returned calls never run the target |
| AsyncWait.NeverStuck | DelegateMQ/delegate/DelegateAsyncWait.h:244-262 | while the caller is inside the call, it or the holder of the lock that it needs can take a step |
| AsyncWait.RunsAreShort | DelegateMQ/delegate/DelegateAsyncWait.h:227-263 | at most 13 steps are taken for each call, so every call ends |
| AsyncWait.RunsIffCheckedInTime | DelegateMQ/delegate/DelegateAsyncWait.h:516-520 | for every run and every call that has returned: the source cleared the flag once, and the target ran if and only if the destination looked at it before |
| AsyncWait.SucceedsUnlessGivenUp | DelegateMQ/delegate/DelegateAsyncWait.h:244-262 | a call that timed out or was not dispatched fails, and leaves the target alone exactly if the flag was cleared first; any other call has run and succeeds exactly if the run returned normally |
| AsyncWait.WakeReady | DelegateMQ/delegate/DelegateAsyncWait.h:527-530 | in every interleaving a target that has finished, also by throwing, has woken its caller once it is past the signal |
| AsyncWait.WaitingIsServed | DelegateMQ/delegate/DelegateAsyncWait.h:248-251 | a waiting call whose message was not dropped is queued, being worked on, or done |
| AsyncWait.CallCompletes | DelegateMQ/delegate/DelegateAsyncWait.h:227-263 | from every such state the call can be brought to its end without a timeout; if its target had still to finish, it succeeds with the value that the target returns |
| AsyncWait.NextCallSucceeds | DelegateMQ/delegate/DelegateAsyncWait.h:227-263 | so after every run, with whatever stale messages, the next call can succeed |
| AsyncWait.FailedThoughRun | DelegateMQ/delegate/DelegateAsyncWait.h:244-262 | a run whose timeout fires while the target runs and that reports failure although it completed |
| BlockSize.BitOfOr | DelegateMQ/extras/allocator/xallocator.cpp:111-111 | the arithmetic or sets exactly the bits set in one of its operands |
| BlockSize.SmearMore | DelegateMQ/extras/allocator/xallocator.cpp:110-111 | one round of shift and or doubles the number of places to which each bit is copied |
| BlockSize.NextHigher | DelegateMQ/extras/allocator/xallocator.cpp:106-113 | the loop yields the rounded size for 1 to 2^63 and 0 for everything else |
| BlockSize.RoundUpIsLeast | DelegateMQ/extras/allocator/xallocator.cpp:102-105 | rounded sizes are the least powers of two not below the request |
| BlockSize.HoldsRequestIff | DelegateMQ/extras/allocator/xallocator.cpp:293-297 | the block holds request and header exactly up to 2^63 - 16 |
| XAllocator.Allocator.Push | DelegateMQ/extras/allocator/Allocator.cpp:151-156 | the block becomes the first of the free list |
| XAllocator.Allocator.Pop | DelegateMQ/extras/allocator/Allocator.cpp:161-172 | the first block leaves the free list, null if there is none |
| XAllocator.Allocator.Deallocate | DelegateMQ/extras/allocator/Allocator.cpp:119-136 | the used block becomes free; lists, headers and counters stay in agreement |
| XAllocator.Allocator.Obtain | DelegateMQ/extras/allocator/xallocator.cpp:360-383 | a recycled block if there is one, else a new one unless the heap is exhausted; it becomes used, its header names the allocator, counters agree |
| XAllocator.CountAlloc | DelegateMQ/extras/allocator/Allocator.cpp:141-146 | modulo 2^32, in use equals used blocks and allocations minus deallocations |
| XAllocator.XAllocator.FindAllocator | DelegateMQ/extras/allocator/xallocator.cpp:192-204 | finds the bucket of a size if and only if there is one |
| XAllocator.XAllocator.InsertAllocator | DelegateMQ/extras/allocator/xallocator.cpp:209-220 | fills the first empty slot; occupied slots stay a prefix |
| XAllocator.XAllocator.GetAllocator | DelegateMQ/extras/allocator/xallocator.cpp:293-337 | the one bucket of the rounded size, made if need be, or failure with all slots taken by other sizes |
| XAllocator.XAllocator.Malloc | DelegateMQ/extras/allocator/xallocator.cpp:343-392 | exactly one block becomes live, none that was live before, large enough; the first free block of the bucket if there is one; null exactly if the size has no bucket and all slots are taken, which fails an assertion, or there is no free block and the heap is exhausted; the heap invariant holds |
| XAllocator.XAllocator.HeaderOf | DelegateMQ/extras/allocator/xallocator.cpp:166-178 | the header of a live block leads to the allocator that made it |
| XAllocator.XAllocator.Free | DelegateMQ/extras/allocator/xallocator.cpp:397-416 | exactly this block is live no more; null is ignored |
| XAllocator.XAllocator.CopyBytes | DelegateMQ/extras/allocator/xallocator.cpp:442-442 | copies the first bytes, no more than either block holds, and leaves the others alone |
| XAllocator.XAllocator.Realloc | DelegateMQ/extras/allocator/xallocator.cpp:421-452 | the first min(old capacity, new size) bytes are in the new block and no others are touched, other live blocks keep their bytes, and without a new block the old one is kept; the assertion fails exactly if an allocation needs a bucket and has no slot |
| BucketRace.StepSound | DelegateMQ/extras/allocator/xallocator.cpp:293-337 | each lock region, creation and deletion keeps every allocator object in exactly one place, and the sizes in the table distinct unless a size was raised |
| BucketRace.SmallIff | DelegateMQ/extras/allocator/Allocator.cpp:10-12 | exactly which requests overflow to a size that the constructor has to raise |
| BucketRace.SameSizeSameAllocator | DelegateMQ/extras/allocator/xallocator.cpp:301-331 | in every interleaving two calls for the same rounded size get the same allocator if and only if it needs not be raised, calls for different such sizes get different ones; it is in the table and not deleted |
| BucketRace.NothingLost | DelegateMQ/extras/allocator/xallocator.cpp:320-331 | when all calls are over each allocator made is in the table or deleted, and not both |
| BucketRace.FaultMeansFull | DelegateMQ/extras/allocator/xallocator.cpp:320-325 | a call fails only for want of a slot |
| BucketRace.FaultIff | DelegateMQ/extras/allocator/xallocator.cpp:301-331 | when all calls are over, some call has failed if and only if they asked for more different sizes than there are slots, in whatever interleaving |
| BucketRace.OwnBucket | DelegateMQ/extras/allocator/xallocator.cpp:293-337 | in every interleaving each call that returns has a bucket whose blocks hold its own request and the header, unless the size overflows |
| BucketRace.CallEnds | DelegateMQ/extras/allocator/xallocator.cpp:293-337 | what a call does that nothing disturbs: the bucket there is, else a new one in the next slot, else failure with nothing left behind |
| HeapRace.StepSound | DelegateMQ/extras/allocator/xallocator.cpp:343-416 | each lock region of allocation and release, and each access outside of it, keeps free lists, headers, hands and counters in order |
| HeapRace.OnePlace | DelegateMQ/extras/allocator/Allocator.cpp:151-172 | in every interleaving each block is on its own free list once and on no other, or in the hands of one call, or with a client, and then its header names its bucket |
| HeapRace.MallocGives | DelegateMQ/extras/allocator/xallocator.cpp:357-392 | in every interleaving an allocation ends with a block of its bucket that no client had; other live blocks are untouched |
| HeapRace.OwnBusiness | DelegateMQ/extras/allocator/xallocator.cpp:343-416 | in every interleaving an allocation works on the bucket that it named, a release on its own block, which goes to the bucket that made it |
| HeapRace.MallocReuses | DelegateMQ/extras/allocator/xallocator.cpp:361-365 | left alone, an allocation gives the first block of the free list |
| HeapRace.MallocGrows | DelegateMQ/extras/allocator/xallocator.cpp:367-379 | with an empty list it gives a new block, or none if the heap is exhausted |
| HeapRace.FreeReturns | DelegateMQ/extras/allocator/xallocator.cpp:397-416 | left alone, a release puts the block in front of the list of its own bucket |
| HeapRace.CountersAtRest | DelegateMQ/extras/allocator/Allocator.cpp:119-146 | with no call under way the counters say, modulo 2^32, how many blocks there are and how many are live |
| Crc16.TableCorrect | DelegateMQ/extras/util/crc16.h:24-51 | each of the 256 entries is its index shifted through the register |
| Crc16.TableCrc | DelegateMQ/extras/util/crc16.h:56-61 | the table form computes Crc |
| Crc16.LoopCrc | DelegateMQ/extras/util/crc16.h:68-84 | the bit form computes Crc, so both agree on every message and start value |
| Crc16.Compose | DelegateMQ/extras/util/crc16.h:68-84 | the CRC of a concatenation is the CRC of the second part started from that of the first |
| Crc16.SelfCheck | DelegateMQ/extras/util/crc16.h:68-84 | a message followed by its own CRC, high byte first, has CRC 0 |
| Crc16.TailKeepsDifference | DelegateMQ/extras/util/crc16.h:68-84 | equal bytes at the end lead from different registers to different ones |
| Crc16.BurstDetected | DelegateMQ/extras/util/crc16.h:68-84 | messages that differ within two adjacent bytes share a CRC only if they are equal |
| Crc16.OneByteErrorDetected | DelegateMQ/extras/util/crc16.h:68-84 | messages of one length that differ in one byte never share a CRC |
| Crc16.CrcIsTheRemainder | DelegateMQ/extras/util/crc16.h:18-18 | the CRC is the one remainder of the message polynomial, start value included, by x^16 + x^12 + x^5 + 1, the generator in section 2 of ITU-T Recommendation V.41 |
| Multicast.MulticastDelegate.PushBack | DelegateMQ/delegate/MulticastDelegate.h:32-52 | appends to the plain list; no position disappears |
| Multicast.MulticastDelegate.RemoveDelegate | DelegateMQ/delegate/MulticastDelegate.h:61-81 | removes the first equal delegate of the plain list, by nulling during a broadcast |
| Multicast.MulticastDelegate.ClearAll | DelegateMQ/delegate/MulticastDelegate.h:84-94 | empties the plain list, by nulling during a broadcast |
| Multicast.MulticastDelegate.CopyAssign | DelegateMQ/delegate/MulticastDelegate.h:247-253 | the plain list becomes that of the right-hand side, which is unchanged and may be broadcasting |
| Multicast.MulticastDelegate.MoveAssign | DelegateMQ/delegate/MulticastDelegate.h:258-275 | the plain list becomes that of the right-hand side, which is emptied; tidy exactly if it holds no nulls or a broadcast is under way |
| Multicast.MulticastDelegate.PurgeNulls | DelegateMQ/delegate/MulticastDelegate.h:144-153 | exactly the non-null entries stay, in order |
| Multicast.MulticastDelegate.Run | DelegateMQ/delegate/MulticastDelegate.h:61-275 | any script of edits and nested broadcasts: the non-null entries equal the plain list with the edits made, no null is left at depth 0, no position disappears during a broadcast |
| Multicast.MulticastDelegate.BroadcastTo | DelegateMQ/delegate/MulticastDelegate.h:208-219 | a pass calls, again and again, the first delegate of the plain list that is still ahead of it, until none is, while the callbacks edit that list; each called delegate is in the list at that moment |
| Multicast.SparedAreCalled | DelegateMQ/delegate/MulticastDelegate.h:208-219 | of delegates that no callback removes, those called are exactly those in the list at the start and those added, each once for each time, in this order |
| Multicast.RemovedNotCalled | DelegateMQ/delegate/MulticastDelegate.h:71-75 | a delegate that is not in the plain list after some of the calls, and that nothing later adds or assigns, is not called any more |
| Multicast.CalledAreSubsequence | DelegateMQ/delegate/MulticastDelegate.h:208-219 | if callbacks only remove, the called delegates are the list with some left out |
| DelegateQueue.EachLaneIsFifo | DelegateMQ/delegate/DelegateMsg.h:15-33 | the two-lane specification keeps the order within each priority, over every run |
| DelegateQueue.HighFirst | DelegateMQ/delegate/DelegateMsg.h:15-33 | in the specification a NORMAL message comes out only when all HIGH ones put in before have come out |
| DelegateQueue.FreeRTOSDelegateQueue.Send | DelegateMQ/port/os/freertos/FreeRTOSDelegateQueue.h:111-118 | enqueues in its lane exactly if that has room, and rings once |
| DelegateQueue.FreeRTOSDelegateQueue.Receive | DelegateMQ/port/os/freertos/FreeRTOSDelegateQueue.h:127-138 | returns the front of the two lanes, or nothing if the doorbell has not rung |
| DelegateQueue.FreeRTOSDelegateQueue.DrainAndDelete | DelegateMQ/port/os/freertos/FreeRTOSDelegateQueue.h:152-161 | deletes each waiting message once, HIGH first, and keeps the doorbell count; it still agrees exactly if nothing was waiting |
| DelegateQueue.DoorbellHolds | DelegateMQ/port/os/freertos/FreeRTOSDelegateQueue.h:78-95 | in every interleaving messages = count + givers + taker, a give never finds the semaphore full, a take always yields a message |
| DelegateQueue.RunRefines | DelegateMQ/port/os/freertos/FreeRTOSDelegateQueue.h:111-138 | every interleaving is a run of the two-lane specification, Receive taking effect at its look into the HIGH lane |
| DelegateQueue.ReceivedInOrder | DelegateMQ/delegate/DelegateMsg.h:15-33 | messages of each priority are received in the order in which they were queued |
| DelegateQueue.NormalYields | DelegateMQ/port/os/freertos/FreeRTOSDelegateQueue.h:127-138 | a NORMAL message is returned only if every HIGH one queued at the look into the HIGH lane had been returned |
| DelegateQueue.EverythingComesOut | DelegateMQ/port/os/freertos/FreeRTOSDelegateQueue.h:111-138 | after every run the gives still to come and the receiver alone bring out every message queued, in order, and silence the doorbell |
| DelegateQueue.TakesItsCapacity | DelegateMQ/port/os/freertos/FreeRTOSDelegateQueue.h:78-95 | an unread queue takes exactly its capacity of each priority |
| Timers.CheckPunctual | DelegateMQ/extras/util/Timer.cpp:106-140 | CheckExpired keeps deadlines at or behind the multiples of the timeout after the start |
| Timers.CatchesUp | DelegateMQ/extras/util/Timer.cpp:121-137 | a check that finds a periodic timer due moves its deadline on by at least a timeout, never leaves it in the past, and moves it further only up to the last reading of the clock |
| Timers.NeverEarly | DelegateMQ/extras/util/Timer.cpp:106-140 | the k-th firing is never earlier than k timeouts after the start, also after falling behind |
| Timers.NoDrift | DelegateMQ/extras/util/Timer.cpp:121-137 | checked at least once a timeout, deadlines are exactly the multiples |
| Timers.FiresAtEach | DelegateMQ/extras/util/Timer.cpp:106-140 | checked that often, the number of firings is that of the multiples reached |
| Timers.Timer.CheckExpired | DelegateMQ/extras/util/Timer.cpp:106-140 | expires exactly if enabled and due at the first reading; the new timing for each reading of the clock |
| Timers.TimerList.Start | DelegateMQ/extras/util/Timer.cpp:45-85 | refuses timeouts that are not positive; otherwise arms the timer and puts it in front unless it is in the list |
| Timers.TimerList.Stop | DelegateMQ/extras/util/Timer.cpp:90-101 | disables the timer, leaves it in the list and sets the flag; the list invariant holds |
| Timers.TimerList.Destroy | DelegateMQ/extras/util/Timer.cpp:24-40 | exactly this timer leaves the list |
| Timers.TimerList.Unlink | DelegateMQ/extras/util/Timer.cpp:34-35 | relinking around one timer keeps the chain acyclic and everything else in order |
| Timers.TimerList.Purge | DelegateMQ/extras/util/Timer.cpp:154-170 | exactly the enabled timers stay, in their old order |
| Timers.FaultCondition | DelegateMQ/extras/util/Timer.cpp:176-190 | when the assertion fails, told from the timers before the call: never with as many as the limit, always if the limit is reached by timers due then other than the last, exactly then if the clock stands still |
| Timers.FaultHappens | DelegateMQ/extras/util/Timer.cpp:179-183 | one due timer more than the limit makes it fail |
| Timers.TimerList.CheckAll | DelegateMQ/extras/util/Timer.cpp:176-190 | each expired timer gives one snapshot in list order; each timer has the timing that its readings of the clock give |
| Timers.TimerList.ProcessTimers | DelegateMQ/extras/util/Timer.cpp:145-190 | purge and check together, with the list invariant and the rate bound kept; no fault while at most the limit of timers are enabled, and otherwise as told by the timers before the call |
| StateEngine.StateMachine.ExternalEvent | StateMachine/StateMachine.cpp:19-48 | ignored events change nothing; any other runs the engine as specified, for both kinds of state map |
| StateEngine.StateMachine.InternalEvent | StateMachine/StateMachine.cpp:53-61 | the event is pending, data is made if there is none, and an event pending before is lost with its data |
| StateEngine.StateMachine.Engine | StateMachine/StateMachine.cpp:84-214 | the loops end and reach the specified configuration |
| StateEngine.TurnGoesDown | StateMachine/StateMachine.cpp:93-132 | each turn lowers the rank of the pending event, so the engine terminates |
| StateEngine.RunAccounted | StateMachine/StateMachine.cpp:116-131 | on return no event is pending, each datum the machine made is deleted once or lost once, none is lost if actions raise one event at most, the caller's is never deleted |
| StateEngine.RaiseAllLeaks | StateMachine/StateMachine.cpp:53-61 | an action loses data exactly if it raises more than one event |
| StateEngine.TurnHooks | StateMachine/StateMachine.cpp:166-197 | the state action runs exactly if the guard passes, exit and entry actions exactly if the state changes |
| StateEngine.TurnOrder | StateMachine/StateMachine.cpp:166-195 | guard, exit action, entry action and state action run in this order |
| StateEngine.EnteredAsLeft | StateMachine/StateMachine.cpp:177-191 | over a whole run a state has been entered once more than left exactly if the machine has come to be in it |
| StateEngine.SimpleIsExtended | StateMachine/StateMachine.cpp:84-133 | the engine for simple maps does what the other does with rows without hooks |
| StateEngine.FollowHops | StateMachine/StateMachine.cpp:138-214 | where an event leads depends on state, fields and data alone and can be followed hop by hop |
| SelfTest.CentrifugePolled | SelfTest/CentrifugeTest.cpp:36-48 | what a poll does in each state of the ramp, the transitions that it triggers included |
| SelfTest.CentrifugeStarted | SelfTest/CentrifugeTest.cpp:69-92 | a start is taken exactly in Idle at speed 0 |
| SelfTest.CentrifugeCancelled | SelfTest/SelfTest.cpp:16-24 | a cancelled ramp ends in Idle with the timer stopped, the failure signal posted and the speed unchanged |
| SelfTest.CentrifugeTest.Poll | SelfTest/CentrifugeTest.cpp:36-162 | the same on the imperative engine, with every event datum deleted exactly once |
| SelfTest.PressureStarted | SelfTest/PressureTest.cpp:15-33 | the pressure test completes within its own start |
| SelfTest.EngineStarted | SelfTest/SelfTestEngine.cpp:47-90 | a start in Idle starts the centrifuge test and is ignored while tests run |
| SelfTest.EngineCompleted | SelfTest/SelfTestEngine.cpp:70-99 | completion leads from the centrifuge test to the pressure test and from there to completion of the engine |
| SelfTest.StepSound | SelfTest/CentrifugeTest.cpp:19-162 | every start, cancel, tick and dispatch keeps the resting states, the timer exactly on while the centrifuge is not idle, the speed ranges, and no assertion or CANNOT_HAPPEN reached |
| SelfTest.FaultShows | StateMachine/StateMachine.cpp:95-95 | a failed assertion of any of the three machines, CANNOT_HAPPEN included, shows in the world and stays |
| SelfTest.RunSound | SelfTest/SelfTestEngine.cpp:17-99 | so in every run |
| SelfTest.FirstRun | SelfTest/SelfTestEngine.cpp:70-99 | without cancels the centrifuge completes with the 11th poll that counts, then the pressure test, then the engine, each once |
| SelfTest.EveryRunCanFinish | SelfTest/CentrifugeTest.cpp:97-151 | from every state of every run without cancels, whatever is queued, dispatches and ticks of the running timer take a started run to its end; an unstarted one needs one start more |
| SelfTest.FirstRunCompletes | SelfTest/SelfTestEngine.cpp:47-99 | a run of one start and 11 ticks that finishes |
| SelfTest.CompletesAtMostOnce | SelfTest/CentrifugeTest.cpp:143-151 | in every run, cancels included, the centrifuge test completes at most once, and the speed -1 records it |
| SelfTest.NeverRunsAgain | SelfTest/CentrifugeTest.cpp:85-92 | an idle centrifuge with a speed other than 0 never runs again |
| SelfTest.EngineCompletesOnItsOwn | SelfTest/SelfTestEngine.cpp:70-99 | in every run, cancels included, the engine test completes at most once; the centrifuge test has completed since the start of that engine run if and only if this start did not come upon an idle centrifuge with a speed other than 0 |
| SelfTest.StaleCompletion | SelfTest/SelfTestEngine.cpp:70-79 | a run with one cancel whose engine test completes without a centrifuge test |

## Left out

- XAllocator.XAllocator.Malloc: states what happens for requests up to 2^63 - 16 bytes; beyond, the size computation overflows (`BlockSize.HoldsRequestIff`) and the block is too small, which the code does not check.
- BucketRace.FaultIff: for calls whose sizes need not be raised; with raised sizes every call takes a slot of its own.
- RetryProtocol.EndToEnd: handlers are registered before the run; registration during a run is in Participant.dfy only.
- XAllocator.XAllocator.GetAllocator: the same bound on the size as for Malloc.
- XAllocator.XAllocator.Realloc: the same bound on the size as for Malloc.
- HeapRace.StepSound: the bucket of each call is given; how calls get it is interleaved in BucketRace.dfy. Clients release only what they were given and have not released yet.
- Reliability.TransportMonitor.Remove: the status signal has the RetryMonitor as its one listener; a monitor without any, whose reports go nowhere, is not modelled apart (a listener that stores nothing does the same to the monitor).
- Reliability.TransportMonitor.Process: the same one listener.
- Reliability.TransportMonitor.Pass: the same one listener.
- Guards of state machines that change fields or raise events, and callbacks that throw out of a broadcast: none in the repository.
- The warning callbacks OnCapExceeded and OnPendingExceeded of TransportMonitor: they change nothing in it.
- AsyncWait.RunsAreShort: the target function itself takes one step; a target that does not end keeps its caller waiting.
- Sends that block: ITransport::Send is one step, and what it puts on the network may be delivered any number of times, also never.
- Batches in the interleaved protocol: an expired entry is taken in a step of its own, so that a batch is several of these in a row; the clock decides nothing there, any pending entry may expire.
- Physical transports, acknowledgement wire format, sockets and serial ports: input and output.
- Creation and destruction of the native queue objects, their failure, and waiting with a finite timeout: FreeRTOS calls.
- Static pools, heap pools, the new-handler loop and the block canaries of the allocator: other compile-time variants.
- xalloc_init, xalloc_destroy and the statistics output: start-up, shut-down and printing.
- Thread creation, watchdogs, thread statistics, mutexes and critical sections: assumed correct.
- Signal, UnicastDelegate, DataBus, NetworkNode, rate limits and deadline subscriptions: registries and wiring around what is modelled; they would add easier members only.
- State actions are functions on a record of the fields of the machine, and status strings are left out; the engine machine of the self-test runs in the specification of the engine, the centrifuge machine also in the imperative one.
- State actions that send external events to their own machine: no state map of the repository does.
- Timer callbacks: ProcessTimers returns the expired timers in the order in which their callbacks run.
- Multicast delegates that move-assign from a container which is itself broadcasting: its iterator would go on in the other container.
