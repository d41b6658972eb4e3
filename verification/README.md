# Three bounded FIFO queues, modelled and proved

The repository holds three bounded FIFO queues behind one contract: fixed capacity, FIFO order, nothing lost,
duplicated or reordered, `close()` refuses new items and the queued ones still come out. Each reaches the contract
by a different synchronisation argument. This project models those arguments and proves them for every run.

`dafny verify dfyconfig.toml` checks everything.

## How the models are built

**MpmcQueue** (`MpmcModel`) is a transition system with any number of threads and one step per atomic action: load
`closed_`, load a position, load a slot's sequence, compare-exchange, move the value, store the sequence. Memory is
weak. Every atomic location keeps its whole modification order; a load may return any message that is not older than
what the thread's view already knows; a release store attaches the storing thread's view and an acquire load joins it;
a successful compare-exchange reads the newest message and a weak one may fail for no reason. This is the
modification-order and happens-before reading of sections 6.9.2.1 [intro.races] and 31.4 [atomics.order] of ISO C++20.
Plain interleaving is the special case in which every load picks the newest message. A slot's value is not atomic: its
accesses are numbered, and one that is not ordered after all earlier ones sets `raced`. A `Sync` step stands for a
thread that has joined another one. Tickets are unbounded or 64 bits wide (`Word`).

**SpscQueue** (`SpscModel`) uses the same memory with one producer, one consumer and any number of threads that may
close. Slot write, index publish and cache refresh are separate steps, and single and bulk calls mix freely. Behind
the four indices stand unbounded counters: H and T for head and tail, HC and TC for the two caches.

**MutexQueue** (`MutexModel`) is a monitor. A critical section is one step and each notification after the unlock is
another; sleepers may be woken by a notification, spuriously, or by a timeout, and other threads may barge in before a
woken one holds the lock again.

Threads keep what their last call returned (`ok`; for SPSC `ret` and `out`). `LastCall` and its siblings read off the
actions, not off the thread, which call a thread is executing; the theorems about answers tie the two together.

`SpscRing`, `MutexRing` and `MpmcRing` are the classes themselves: the buffers, indices and loops of the source,
updated in place, with every operation specified by the abstract sequence `Contents()`. The critical sections of
`MutexRing` are proved to do what the corresponding steps of `MutexModel` do, and uncontended calls of the two lock-free
classes are proved to be runs of `MpmcModel` and `SpscModel` that end in the state the class method leaves.

A run is a sequence of actions; an action that is not possible at that moment changes nothing, so a statement about all
action sequences is a statement about all schedules and all stale reads. The inductive invariants (`Inv`) hold in every
state of every run (`MpmcRuns.RunInv`, `SpscInvariant.RunInv`, `MutexRuns.RunInv`); lemmas that take `Inv(s)` are
therefore about all reachable states. `Sound(s)` says outright that some run of some queue leads to s, and `Via` that
one thread, or all but one, lead from one state to another.

## What came out

- All three queues meet their contract. Linearisation points are the two compare-exchanges (MPMC), the two index
  publishes (SPSC) and the critical sections (mutex queue). Every call's answer is right (`EveryCallAnswers`,
  `EveryPushAnswers`, `EveryPopAnswers`), and from argument to result nothing is lost, duplicated or reordered.
- The documented shutdown rule of the lock-free queues, that `close()` must come from a thread that has synchronised
  with all producers, is sufficient under stale reads (`DrainComplete`), provided it holds for *every* close. Without
  it the promise is false, and `MissesExactly` gives the exact condition, for MPMC and for SPSC: an idle consumer's
  `pop()` can return false and leave the queue untouched if and only if there is a close it may act on after which it
  may still load a position and read a slot (for SPSC: a tail) that shows nothing there. For MPMC a stale dequeue
  position is enough, so having synchronised with the producer of the head item alone does not help. At every capacity
  there is a run that reaches such a state with an item queued (`UnsyncedCloseLoses`). `close()` being described as
  idempotent and callable from any thread (include/cq/mpmc_queue.hpp:87-95) is to be read with that in mind: a second,
  unsynchronised close is enough.
- "At most one late item per producer already past its check" holds when producers' loads of `closed_` are fresh
  (`LatePushes`). Those loads are relaxed, and a stale one lets a producer that does not know of the close land
  further items; `TwoLate` shows two. What holds for all loads: a producer that knows of a close lands nothing more,
  or one item if it is past its check (`InformedPushes`), and with room a producer between calls can still land an item
  if and only if it does not know of any close (`LandsExactly`).
- include/cq/mpmc_queue.ipp:59-61 says that with a capacity that is not a power of two slot indexing goes wrong when
  doubled tickets wrap, at ticket 2^63. The code indexes with the ticket itself, which wraps at 2^64. The model follows
  the code: a wrapped ticket keeps its slot exactly when the capacity divides 2^64 (`IndexAcrossWrap`), and the signed
  comparison survives wrap-around of both operands while their true difference fits a signed word
  (`SignedDifAcrossWrap`).
- The bulk formulas of SpscQueue are right in 64-bit arithmetic exactly when `cache + ring - own` (less one for free
  slots) does not reach 2^64, which covers every ring of up to 2^63 slots (`FormulasFit`).

## Model

| member | source | states |
|---|---|---|
| `MpmcRuns.Linearizable` | include/cq/mpmc_queue.ipp:115-156 | every run, with any number of threads and any permitted stale reads, is a legal run of a sequential FIFO of at most N items, and the winner of dequeue ticket t returns what the FIFO's t-th dequeue returns: the argument of the t-th enqueue |
| `MpmcCalls.DeliversArguments` | include/cq/mpmc_queue.ipp:68-156 | in every run, whoever wins dequeue ticket t delivers the argument of the push or try_push call that won enqueue ticket t |
| `MpmcCalls.ClaimsAreArguments` | include/cq/mpmc_queue.ipp:68-134 | every enqueue ticket carries the argument of the push or try_push its winner had begun last |
| `MpmcCalls.EveryCallAnswers` | include/cq/mpmc_queue.ipp:68-156 | in every run, a push that returned true has won exactly one enqueue ticket since it began, carrying its argument, and one that returned false none; a pop that returned true has won exactly one dequeue ticket and holds the item it delivers, and one that returned false none |
| `MpmcCalls.EnqFails` | include/cq/mpmc_queue.ipp:116-133 | try_enqueue gives up only on a sequence below its ticket's, and on the newest one if and only if its ticket is the next and ticket t - N is unreleased; try_push then returns false, push checks closed_ again |
| `MpmcCalls.DeqFails` | include/cq/mpmc_queue.ipp:138-155 | try_dequeue gives up only on a sequence that shows its ticket unpublished, and on the newest one if and only if its ticket is the next and unpublished; pop then checks closed_ unless it has found it true, otherwise the call returns false |
| `MpmcCalls.ChecksDecide` | include/cq/mpmc_queue.ipp:73-106 | push and try_push return false on reading closed_ true and go on otherwise; pop tries again either way, for the last time if it read true |
| `MpmcAlone.PushLands` | include/cq/mpmc_queue.ipp:68-134 | from every reachable state, at any point inside a push or try_push past its check or about to check an open queue: with the next ticket's slot free, the thread left alone lands its argument and returns true within nine own steps |
| `MpmcAlone.PushRefused` | include/cq/mpmc_queue.ipp:68-134 | left alone, a push or try_push that checks a closed queue, or a try_push that finds the ring full, returns false and changes nothing |
| `MpmcAlone.PushWaits` | include/cq/mpmc_queue.ipp:69-81 | left alone, a push on a full open queue never returns and changes nothing |
| `MpmcAlone.PopGets` | include/cq/mpmc_queue.ipp:92-156 | from every reachable state, at any point inside a pop or try_pop: with the head's item published, the thread left alone returns true with exactly that item within a fixed number of own steps; after a failed attempt a pop does try again |
| `MpmcAlone.PopFindsNone` | include/cq/mpmc_queue.ipp:92-156 | left alone with nothing published at the head, a try_pop, or a pop on a closed queue, returns false and changes nothing |
| `MpmcAlone.PopWaits` | include/cq/mpmc_queue.ipp:93-106 | left alone, a pop on an open queue with nothing published never returns |
| `MpmcRuns.TraceRefines` | include/cq/mpmc_queue.ipp:115-156 | replaying the compare-exchanges of a run on the sequential FIFO gives exactly the claimed and undelivered items |
| `MpmcRuns.StepRefines` | include/cq/mpmc_queue.ipp:115-156 | each atomic action is a stutter or exactly one enqueue or dequeue of the FIFO |
| `MpmcRuns.RaceFree` | include/cq/mpmc_queue.ipp:43-53 | in every reachable state no value access has raced, and a thread about to touch a slot's value is ordered by happens-before after all earlier accesses to it |
| `MpmcInvariant.EnqClaimInTurn` | include/cq/mpmc_queue.ipp:50-53 | a producer whose compare-exchange can succeed finds the slot still in the state it read, however stale its loads: newest sequence 2t, every earlier access known |
| `MpmcInvariant.DeqClaimInTurn` | include/cq/mpmc_queue.ipp:50-53 | the same for the consumer: newest sequence 2t + 1, ticket t issued to a producer, its value write known |
| `MpmcRuns.SlotDiscipline` | include/cq/mpmc_queue.ipp:35-41 | dequeue position <= enqueue position <= dequeue position + N; slot i's sequences strictly grow and each is 2t or 2t + 1 for a ticket t with t mod N = i |
| `MpmcRuns.Exclusion` | include/cq/mpmc_queue.ipp:121-148 | two threads between compare-exchange and release store never use the same slot, at any capacity including 1 |
| `MpmcInvariant.OneHolder` | include/cq/mpmc_queue.ipp:121-148 | at most one thread, producer or consumer of any lap, holds a slot |
| `MpmcInvariant.InitInv` | include/cq/mpmc_queue.ipp:15-23 | lap-zero initialisation establishes the protocol's invariant |
| `MpmcInvariant.StepInv` | include/cq/mpmc_queue.ipp:68-161 | every atomic action of every thread preserves the invariant while doubled tickets fit the word |
| `MpmcRuns.RunInv` | include/cq/mpmc_queue.ipp:68-161 | the invariant holds along every run |
| `MpmcRuns.ReachableInv` | include/cq/mpmc_queue.ipp:68-161 | the invariant holds in every reachable state |
| `MpmcProgress.FullVerdict` | include/cq/mpmc_queue.ipp:128-129 | on the newest sequence, dif < 0 in try_enqueue if and only if the ticket t is still the next one and t - N is unreleased (ring full, or its consumer still moving out); then dif is -2N or -2N + 1 |
| `MpmcProgress.EmptyVerdict` | include/cq/mpmc_queue.ipp:150-151 | on the newest sequence, dif < 0 in try_dequeue if and only if t is still the next ticket and is unpublished (empty, or claimed and unfilled); then dif is -2N or -1 |
| `MpmcProgress.AheadMeansTaken` | include/cq/mpmc_queue.ipp:55-58 | a sequence ahead of the ticket, however stale, means another thread of that side already took the ticket |
| `MpmcProgress.RetriesPaid` | include/cq/mpmc_queue.ipp:116-155 | with fresh position loads and no spurious failure, the retries of an attempt are at most the growth of the position counter since its first load |
| `MpmcCalls.RetriesAreCounted` | include/cq/mpmc_queue.ipp:116-155 | the retry counter and first ticket bounded there are those the steps of the run show |
| `MpmcProgress.ObstructionFree` | include/cq/mpmc_queue.ipp:116-155 | from every reachable state a thread left alone finishes its attempt within six own steps, one further iteration included (with what result: `MpmcAlone`) |
| `MpmcProgress.AloneFinishes` | include/cq/mpmc_queue.ipp:116-155 | the exact number of own steps is bounded by the rank of the thread's position in the loop |
| `MpmcProgress.Stranded` | include/cq/mpmc_queue.hpp:32-35 | if the holder of ticket t never acts again, every continuation keeps enqueue position <= t + N, and dequeue position <= t when it is a producer; every delivery is still the right item |
| `MpmcStall.DeliversBelow` | include/cq/mpmc_queue.hpp:32-35 | nothing worse than the stall: from every reachable state in which a producer holds ticket t and some thread is free to pop, the other threads alone can deliver every ticket below t, each with its own item |
| `MpmcStall.FinishAll` | include/cq/mpmc_queue.ipp:121-148 | threads other than the stranded one can all return from the calls in which they hold tickets, without it |
| `MpmcSolo.PushSolo` | include/cq/mpmc_queue.ipp:84-134 | an uncontended try_push lands exactly when the closed_ message it read says open and its slot is free, and then changes its slot, the tickets and nothing else |
| `MpmcSolo.PopSolo` | include/cq/mpmc_queue.ipp:109-156 | an uncontended try_pop takes the head's item exactly when it is published, and changes its slot, the tickets and nothing else |
| `MpmcProgress.SizeNeverOverReports` | include/cq/mpmc_queue.ipp:176-189 | with other threads stepping between the two loads and both loads stale, size() is at most the capacity and at most the claimed count at either load plus the dequeues its head load missed: never over-reports with a fresh head load, exact with two fresh loads and nothing in between |
| `MpmcShutdown.DrainComplete` | include/cq/mpmc_queue.hpp:91-94 | if every push happens-before every close, or comes later from a thread that knows of one, then once any pop() has returned false every pushed item has a dequeue winner that got exactly it or is just reading it |
| `MpmcShutdown.ShutRun` | include/cq/mpmc_queue.ipp:63-107 | along such runs every close message, and every consumer that acted on one, knows every publication |
| `MpmcShutdown.SyncedCovers` | include/cq/mpmc_queue.hpp:91-94 | how a caller meets the rule: a thread that has synchronised with every producer once their pushes are over knows every push |
| `MpmcShutdown.SyncTeaches` | include/cq/mpmc_queue.hpp:91-94 | joining a thread teaches everything that thread knows |
| `MpmcViews.RunSettles` | include/cq/mpmc_queue.ipp:43-53 | in every run, whoever knows a sequence message knows what its writer knew of dequeue_pos_ and closed_ |
| `MpmcLoss.MissesExactly` | include/cq/mpmc_queue.ipp:93-107 | in every reachable state, an idle consumer acting alone can have pop() return false and leave the queue untouched if and only if it may read some close message after which a dequeue position it may still load has a slot it may still read as unpublished |
| `MpmcLoss.CoveredNeverMisses` | include/cq/mpmc_queue.hpp:91-94 | with an item queued, a close that knows every push rules that condition out |
| `MpmcLoss.UnsyncedCloseLoses` | include/cq/mpmc_queue.hpp:91-94 | at every capacity, a run with one push and an unsynchronised close reaches a state that meets the condition with the item queued |
| `MpmcLate.LatePushes` | include/cq/mpmc_queue.ipp:73-89 | after closed_ is set, in every continuation whose closed_ loads by producers are fresh, each late item belongs to a producer that was already past its check, and no producer has two |
| `MpmcLate.InformedPushes` | include/cq/mpmc_queue.ipp:73-89 | in every continuation, stale loads included, a producer that knows of a close wins no further ticket unless it is past its check, and then at most one |
| `MpmcLate.LandsExactly` | include/cq/mpmc_queue.ipp:84-90 | with its slot free, an idle producer acting alone can still land an item if and only if it does not know of any close |
| `MpmcLate.TwoLate` | include/cq/mpmc_queue.ipp:86 | at every capacity above 1, a producer that does not know of a close lands two items after it |
| `MpmcWord.WordRefines` | include/cq/mpmc_queue.ipp:55-61 | while doubled tickets stay below 2^63, the 64-bit queue goes through the same states as the unbounded one under every schedule |
| `MpmcWord.StepWord` | include/cq/mpmc_queue.ipp:115-156 | one step with wrapped subtraction, masking and wrapped stores equals the unbounded step |
| `Words.SignedDifFaithful` | include/cq/mpmc_queue.ipp:119-120 | below 2^64 the signed difference is zero only for equal operands; below 2^63 it is the true difference |
| `Words.SignedDifAcrossWrap` | include/cq/mpmc_queue.ipp:55-61 | the comparison is right after wrap-around whenever the true difference fits a signed word |
| `Words.IndexAcrossWrap` | include/cq/mpmc_queue.ipp:59-61 | a wrapped ticket keeps its slot for all tickets if and only if the capacity divides 2^64 |
| `Words.MaskIsMod` | include/cq/mpmc_queue.ipp:17 | for a capacity with a single bit, ticket & (capacity - 1) is ticket mod capacity |
| `Words.SlotIndexIsMod` | include/cq/mpmc_queue.ipp:163-169 | slot_index is ticket mod N for every ticket and every N, through the mask or the division |
| `Words.SlotsDistinct` | include/cq/mpmc_queue.ipp:163-169 | N consecutive tickets use N distinct slots |
| `MpmcRing.Verdicts` | include/cq/mpmc_queue.ipp:55-58 | between calls, a stale ticket is always recognised as stale and the current one tells full or empty exactly |
| `MpmcRing.TryPushRuns` | include/cq/mpmc_queue.ipp:84-134 | an uncontended try_push is a run of the transition system: from any reachable state that depicts the queue's members it reaches one that depicts what `MpmcQueue.TryPush` leaves |
| `MpmcRing.TryPopRuns` | include/cq/mpmc_queue.ipp:109-156 | likewise for try_pop, returning the item in the head's slot |
| `MpmcRing.InitDepicts` | include/cq/mpmc_queue.ipp:15-23 | the initial state depicts the constructed queue |
| `MpmcRing.MpmcQueue.constructor` | include/cq/mpmc_queue.ipp:15-23 | the lap-zero loop yields an open, empty queue in a valid state |
| `MpmcRing.MpmcQueue.SlotOf` | include/cq/mpmc_queue.ipp:163-169 | mask and division agree: the index is ticket mod N |
| `MpmcRing.MpmcQueue.Fill` | include/cq/mpmc_queue.ipp:122-125 | claiming, writing and publishing the slot appends the item |
| `MpmcRing.MpmcQueue.Drain` | include/cq/mpmc_queue.ipp:144-147 | claiming, reading and releasing the slot removes and returns the oldest item |
| `MpmcRing.MpmcQueue.TryEnqueue` | include/cq/mpmc_queue.ipp:114-134 | however stale the first position load and however many spurious failures, the call succeeds if and only if there is room, and then appends |
| `MpmcRing.MpmcQueue.TryDequeue` | include/cq/mpmc_queue.ipp:136-156 | likewise the call fails if and only if empty, and otherwise removes and returns the oldest item |
| `MpmcRing.MpmcQueue.TryPush` | include/cq/mpmc_queue.ipp:84-90 | succeeds if and only if open and not full |
| `MpmcRing.MpmcQueue.Close` | include/cq/mpmc_queue.ipp:158-161 | closes and keeps the contents |
| `MpmcRing.MpmcQueue.Size` | include/cq/mpmc_queue.ipp:176-189 | at most the capacity whatever the loads; never over-reports for a stale tail; exact for fresh loads |
| `MpmcRing.Make` | include/cq/mpmc_queue.ipp:25-31 | capacity 0 is refused, every other capacity gives an empty open queue |
| `SpscRuns.CounterChain` | include/cq/spsc_queue.ipp:49-67 | HC <= H <= TC <= T <= HC + capacity in every state of every run of single and bulk calls, however stale the peer index |
| `SpscRuns.DisjointSlots` | include/cq/spsc_queue.ipp:61-67 | the slots of the producer's current batch and of the consumer's current batch are disjoint modulo capacity + 1 |
| `SpscRuns.RaceFree` | include/cq/spsc_queue.ipp:33-67 | no slot access races, and the i-th item read is the i-th item written, from the same slot |
| `SpscInvariant.WriteInTurn` | include/cq/spsc_queue.ipp:56-67 | every read of the slot about to be overwritten happens-before the write, also on the cached path |
| `SpscInvariant.ReadInTurn` | include/cq/spsc_queue.ipp:56-67 | the slot about to be read was written, the write happens-before, and it holds the next item |
| `SpscRuns.Linearizable` | include/cq/spsc_queue.ipp:69-189 | every run of single and bulk calls is a legal run of a sequential FIFO of at most `capacity` items, each call moving exactly what the FIFO would move |
| `SpscCalls.HandsOutArguments` | include/cq/spsc_queue.ipp:69-189 | in every run, what pops have returned is, in order, a prefix of what pushes accepted of their arguments |
| `SpscCalls.EveryPushAnswers` | include/cq/spsc_queue.ipp:69-166 | in every run, since the producer began its last push, try_push or try_push_n it has published exactly as many items as that call returned, the first ones of its argument, and none while the call runs |
| `SpscCalls.EveryPopAnswers` | include/cq/spsc_queue.ipp:102-189 | in every run, since the consumer began its last pop, try_pop or try_pop_n it has taken exactly the items that call returned, at most as many as wanted |
| `SpscCalls.PushFails` | include/cq/spsc_queue.ipp:76-98 | past its check the producer gives up only when neither cache nor loaded head shows room, with a fresh load if and only if the queue is full; a push then checks closed_ again, the others return 0; otherwise it writes |
| `SpscCalls.PopFails` | include/cq/spsc_queue.ipp:105-123 | the consumer gives up only when neither cache nor loaded tail shows an item, with a fresh load if and only if the queue is empty; a pop then checks closed_ unless it has found it true, otherwise the call returns nothing |
| `SpscCalls.ChecksDecide` | include/cq/spsc_queue.ipp:76-114 | a push of any kind returns 0 on reading closed_ true and goes on otherwise; a pop tries again either way, for the last time if it read true |
| `SpscCalls.ReturnsOnlyThen` | include/cq/spsc_queue.ipp:69-189 | a call ends only at a true closed_, at a failed attempt of a call that does not wait, or at its publish |
| `SpscAlone.PushPublishes` | include/cq/spsc_queue.ipp:69-166 | from every reachable state, at any point inside a push of any kind past its check or about to check an open queue: with room, the producer left alone publishes the front of its argument, all of it for a single push, and returns how much |
| `SpscAlone.PushRefused` | include/cq/spsc_queue.ipp:69-166 | left alone, a push of any kind that checks a closed queue, or a try_push or try_push_n on a full one, returns 0 and leaves the queue as it was |
| `SpscAlone.PushWaits` | include/cq/spsc_queue.ipp:70-84 | left alone, a push on a full open queue never returns |
| `SpscAlone.PopGets` | include/cq/spsc_queue.ipp:102-189 | from every reachable state, at any point inside a pop of any kind: on a queue that is not empty the consumer left alone returns items from the front; after a failed attempt a pop does try again |
| `SpscAlone.PopFindsNone` | include/cq/spsc_queue.ipp:102-189 | left alone on an empty queue, a try_pop, a try_pop_n, or a pop once the queue is closed, returns nothing |
| `SpscAlone.PopWaits` | include/cq/spsc_queue.ipp:103-115 | left alone, a pop on an empty open queue never returns |
| `SpscRuns.StepRefines` | include/cq/spsc_queue.ipp:128-189 | each step is a stutter or exactly the one publish it performs |
| `SpscRuns.RoomVerdict` | include/cq/spsc_queue.ipp:191-198 | room seen through the cache is room on the real index; after a fresh load the answer equals the uncached ring's, and is "full" if and only if the queue holds `capacity` items |
| `SpscRuns.DataVerdict` | include/cq/spsc_queue.ipp:200-207 | the mirror for data, with "empty" if and only if the queue is empty |
| `SpscRuns.BulkIsRepeatedSingle` | include/cq/spsc_queue.ipp:140-189 | in every run, the queue holds what a sequential FIFO holds after moving, one item per call, exactly the items the run's single and bulk calls moved |
| `SpscInvariant.FreeSlotsIs` | include/cq/spsc_queue.ipp:150-153 | the modular free-slot formula is HC + capacity - T |
| `SpscInvariant.AvailableIs` | include/cq/spsc_queue.ipp:176 | the modular available-items formula is TC - H |
| `SpscInvariant.FormulasFit` | include/cq/spsc_queue.ipp:152-176 | the 64-bit expressions give these values if and only if the inner sum does not reach 2^64; always for rings of up to 2^63 slots |
| `SpscInvariant.StepInv` | include/cq/spsc_queue.ipp:69-212 | every step of either side, and every close and join, preserves the invariant |
| `SpscInvariant.RunInv` | include/cq/spsc_queue.ipp:69-212 | the invariant holds along every run |
| `SpscShutdown.DrainComplete` | include/cq/spsc_queue.ipp:45-47 | if every push happens-before every close, or comes later and knows of one, a pop() that returned false means everything written has been read, in order |
| `SpscShutdown.SyncTeaches` | include/cq/spsc_queue.ipp:45-47 | joining a thread teaches everything that thread knows |
| `SpscLoss.MissesExactly` | include/cq/spsc_queue.ipp:103-116 | in every reachable state, the idle consumer acting alone can have pop() return false and leave the queue untouched if and only if it may read some close message and after it still a tail that says everything was taken |
| `SpscLoss.CoveredNeverMisses` | include/cq/spsc_queue.ipp:45-47 | with an item published, a close that knows the newest tail rules that condition out |
| `SpscLoss.UnsyncedCloseLoses` | include/cq/spsc_queue.ipp:45-47 | at every capacity, a run with one push and an unsynchronised close reaches a state that meets the condition with the item published |
| `SpscLoss.RunLearns` | include/cq/spsc_queue.ipp:56-59 | in every run, whoever knows a published tail knows what the producer then knew of closed_ |
| `SpscLate.LatePushes` | include/cq/spsc_queue.ipp:73-100 | in every continuation whose closed_ loads by the producer are fresh, a racing close admits at most one more push or batch, and only from a producer already past its check |
| `SpscLate.InformedPushes` | include/cq/spsc_queue.ipp:73-100 | in every continuation, stale loads included, a producer that knows of a close publishes nothing more, or once if it is past its check |
| `SpscLate.LandsExactly` | include/cq/spsc_queue.ipp:89-100 | with room, an idle producer can still land an item if and only if it does not know of any close |
| `SpscLate.TwoLate` | include/cq/spsc_queue.ipp:91 | at every capacity above 1, a producer that does not know of a close lands two items after it |
| `SpscSolo.PushSolo` | include/cq/spsc_queue.ipp:89-166 | an uncontended try_push or try_push_n stores the accepted items behind the old tail and publishes them at once; how many is decided by the cached head, refreshed only when it says full |
| `SpscSolo.BlockingPushSolo` | include/cq/spsc_queue.ipp:69-87 | an uncontended push that does not have to wait stores its item behind the old tail and publishes it, or is refused on a closed queue |
| `SpscSolo.PopSolo` | include/cq/spsc_queue.ipp:118-189 | an uncontended try_pop or try_pop_n returns the items from the old head on and gives their slots back at once |
| `SpscRing.PushRuns` | include/cq/spsc_queue.ipp:69-166 | an uncontended push that does not have to wait, blocking, try or bulk, is a run of the transition system that ends in the members `SpscQueue.TryPush` or `TryPushN` leaves |
| `SpscRing.PopRuns` | include/cq/spsc_queue.ipp:118-189 | likewise for single and bulk pops, returning the same items |
| `SpscRing.PushBothWays` | include/cq/spsc_queue.ipp:89-166 | on two queues with equal contents, try_push_n accepting k items leaves the contents that k try_push calls with those items leave, all of which succeed |
| `SpscRing.PopBothWays` | include/cq/spsc_queue.ipp:118-189 | try_pop_n returns exactly what as many try_pop calls return, and leaves the same contents |
| `SpscRing.StoredWindow` | include/cq/spsc_queue.ipp:158-161 | storing a batch slot by slot from the tail appends it to the queue, across the wrap |
| `SpscRing.RingSlots` | include/cq/spsc_queue.ipp:21-31 | succeeds exactly for capacities from 1 to 2^64 - 2, with capacity + 1 slots, which fits 64 bits |
| `SpscRing.Make` | include/cq/spsc_queue.ipp:18-31 | capacity 0 and the largest 64-bit capacity are refused; otherwise an empty open ring of capacity + 1 slots |
| `SpscRing.CopyIn` | include/cq/spsc_queue.ipp:158-161 | the copy loop appends the whole batch behind the queued items, across the wrap |
| `SpscRing.CopyOut` | include/cq/spsc_queue.ipp:181-184 | the copy loop returns the oldest items in order |
| `SpscRing.SpscQueue.HasRoom` | include/cq/spsc_queue.ipp:191-198 | true exactly when the queue is not full; the cache is refreshed only when it says full |
| `SpscRing.SpscQueue.HasData` | include/cq/spsc_queue.ipp:200-207 | true exactly when the queue is not empty; the cache is refreshed only when it says empty |
| `SpscRing.SpscQueue.Enqueue` | include/cq/spsc_queue.ipp:128-132 | appends the item |
| `SpscRing.SpscQueue.Dequeue` | include/cq/spsc_queue.ipp:134-138 | removes and returns the oldest item |
| `SpscRing.SpscQueue.TryPush` | include/cq/spsc_queue.ipp:89-100 | succeeds if and only if open and not full, and then appends |
| `SpscRing.SpscQueue.TryPop` | include/cq/spsc_queue.ipp:118-126 | fails if and only if empty, otherwise removes and returns the oldest item |
| `SpscRing.SpscQueue.RoomFor` | include/cq/spsc_queue.ipp:149-157 | the batch size through the cache: zero if and only if nothing is wanted or the queue is truly full |
| `SpscRing.SpscQueue.DataFor` | include/cq/spsc_queue.ipp:175-180 | the mirror: zero if and only if nothing is wanted or the queue is truly empty |
| `SpscRing.SpscQueue.PutBatch` | include/cq/spsc_queue.ipp:158-164 | copying and publishing a batch that fits appends it |
| `SpscRing.SpscQueue.TakeBatch` | include/cq/spsc_queue.ipp:181-187 | reading and giving back a batch removes and returns the oldest items |
| `SpscRing.SpscQueue.TryPushN` | include/cq/spsc_queue.ipp:140-166 | appends exactly the first k items; k = 0 if and only if the span is empty, the queue closed or truly full; k is the room the cache licenses |
| `SpscRing.SpscQueue.TryPopN` | include/cq/spsc_queue.ipp:168-189 | removes and returns the oldest items in order; none if and only if none are wanted or the queue is truly empty |
| `SpscRing.SpscQueue.Close` | include/cq/spsc_queue.ipp:209-212 | closes and keeps the contents |
| `SpscRing.SpscQueue.Size` | include/cq/spsc_queue.ipp:219-226 | the modular index difference is the number of queued items |
| `Rings.NextSlot` | include/cq/spsc_queue.ipp:233-236 | next() on an index is the index of the next counter value |
| `MutexRuns.NoLostWakeup` | include/cq/mutex_queue.ipp:25-116 | in every run with spurious wakeups, barging and timeouts: while open, if a consumer sleeps then size <= owed not_empty_ notifications + woken consumers yet to look, and symmetrically for producers and free slots |
| `MutexRuns.NoStuckSleeper` | include/cq/mutex_queue.ipp:25-116 | when no thread is on its way, a sleeping consumer means open and empty, a sleeping producer open and full, and never both kinds sleep |
| `MutexRuns.Conservation` | include/cq/mutex_queue.ipp:25-128 | accepted = popped followed by queued, in order, at most `capacity` queued, in every state; nothing is accepted after close |
| `MutexCalls.EveryCallAnswers` | include/cq/mutex_queue.ipp:25-128 | in every run, since a thread began its last call it has enqueued exactly the call's argument if that is a push of any kind which returned true, and nothing otherwise; and dequeued exactly the item it returns if that is a pop which returned true, and nothing otherwise |
| `MutexCalls.ResultsAreArguments` | include/cq/mutex_queue.ipp:25-128 | in every run, what was accepted are the arguments of the accepting calls, what was popped is what the pops returned, and the results are, in order, a prefix of the arguments |
| `MutexCalls.PushDecides` | include/cq/mutex_queue.ipp:26-50 | under the lock a push enqueues if and only if open with room, returns false if and only if closed or full and out of patience, sleeps if and only if full, open and patient; an untimed push returns false only when closed |
| `MutexCalls.PopDecides` | include/cq/mutex_queue.ipp:53-77 | under the lock a pop takes the oldest item if and only if there is one, returns false if and only if there is none and the queue is closed or its patience is over, sleeps if and only if empty, open and patient; an untimed pop returns false only when closed |
| `MutexCalls.ReturnsOnlyThen` | include/cq/mutex_queue.ipp:25-116 | nothing but the section under the lock makes a push or pop return false |
| `MutexCalls.Waits` | include/cq/mutex_queue.ipp:26-64 | an untimed push on a full open queue, or pop on an empty open one, stays in its call and changes nothing whatever it does alone, spurious wakeups included |
| `MutexCalls.SleepersWake` | include/cq/mutex_queue.ipp:79-116 | a sleeper may wake spuriously, by timeout if its wait is timed, or by any notification owed on its condition |
| `MutexCalls.NotifyReturns` | include/cq/mutex_queue.ipp:35-128 | the notifications a call owes can always be delivered, and then it returns |
| `MutexCalls.CallsEnter` | include/cq/mutex_queue.ipp:25-128 | a call takes its argument and patience to the lock |
| `MutexRuns.DrainFinal` | include/cq/mutex_queue.ipp:53-64 | once any pop() has returned false, accepted = popped, in that state and in every later one |
| `MutexRuns.AllAwake` | include/cq/mutex_queue.ipp:118-128 | once the first closer has delivered both notify_all calls, no thread is asleep, then or in any continuation |
| `MutexRuns.StepInv` | include/cq/mutex_queue.ipp:25-128 | every critical section, notification, wakeup and timeout preserves the wakeup accounting |
| `MutexRuns.RunInv` | include/cq/mutex_queue.ipp:25-128 | the accounting holds along every run |
| `MutexRing.MutexQueue.EnqueueLocked` | include/cq/mutex_queue.ipp:158-163 | appends the item |
| `MutexRing.MutexQueue.DequeueLocked` | include/cq/mutex_queue.ipp:165-170 | removes and returns the oldest item |
| `MutexRing.MutexQueue.TryPush` | include/cq/mutex_queue.ipp:39-50 | succeeds if and only if open and not full, and then appends; this is the monitor's push step with no patience |
| `MutexRing.MutexQueue.TryPop` | include/cq/mutex_queue.ipp:66-77 | fails if and only if empty, otherwise removes and returns the oldest item; this is the monitor's pop step with no patience |
| `MutexRing.MutexQueue.PushLocked` | include/cq/mutex_queue.ipp:28-34 | waits if and only if open and full, refuses if and only if closed, otherwise appends; on the ring this is the monitor's push step: done, returned or asleep as it says |
| `MutexRing.MutexQueue.PopLocked` | include/cq/mutex_queue.ipp:55-61 | a closed queue still hands out its items and refuses only when drained; on the ring this is the monitor's pop step, item included: done, returned or asleep as it says |
| `MutexRing.MutexQueue.CloseLocked` | include/cq/mutex_queue.ipp:120-125 | only the first closer goes on to notify; on the ring this is the monitor's close step |
| `MutexRing.Make` | include/cq/mutex_queue.ipp:15-20 | capacity 0 is refused, every other capacity gives an empty open queue |

## Left out

- Waiting time: `backoff.wait()` is a step that does nothing, and durations in the timed operations are an expiry that
  may happen at any moment.
- Liveness: no fairness is assumed and nothing is said about how long anything takes; the no-lost-wakeup, retry and
  obstruction-freedom results stand in its place.
- Blocking `push` and `pop` of all three queues are modelled in the transition systems only; in the classes, where one
  call runs at a time, they would add nothing to the non-blocking ones.
- Memory behaviour beyond append-only histories with views: load buffering, out-of-thin-air values, fences.
- MpmcWord.WordRefines: says nothing about runs whose doubled tickets reach 2^63; the safety results for 64-bit tickets
  hold until doubled tickets reach 2^64, and beyond that only `SignedDifAcrossWrap` and `IndexAcrossWrap` speak.
- MpmcProgress.FullVerdict: speaks of a load that returns the slot's newest sequence; on a stale one "full" and "empty"
  may be reported wrongly, as the source says.
- MpmcLate.LatePushes: stated for fresh loads of `closed_` by producers, because for stale ones it is false
  (`TwoLate`); `InformedPushes` and `LandsExactly` say what holds for all loads. The same goes for SpscLate.LatePushes.
- MpmcStall.DeliversBelow: asks for a thread that is between calls, because without one nobody need ever pop.
- MpmcRing.MpmcQueue.TryEnqueue: uses unbounded tickets and two arrays (sequences, values) for the slot records.
- Throwing moves, moved-from values and by-value argument consumption: elements are plain values. What a stranded ticket
  does is covered by `Stranded`.
- Object lifetime, destruction, cache-line layout, and the benchmarks.
- `closed()` and `capacity()`: plain reads.
