# Concurrent data structures: a verified model

The repository is a collection of small concurrent algorithms.  This project models its hardest
ones and proves what they are for.

Concurrent code is a state machine: a `State`, a `Step` per scheduling decision, `Enabled(s, a)` (the
step can be taken and touches only memory it may touch), and `Next(s, a)`.  One step is one atomic
load, store, compare-and-swap or exchange, or one mutex operation; any number of threads interleave
freely.  An invariant over the state and a ghost explanation of it is kept by every step
(`StepKeeps`), and theorems about whole runs (`IsRun`) follow.  Sequential bodies are classes and
methods with loops, proved against specification functions.

| file | contents |
|---|---|
| `Arithmetic.dfy`, `Sequences.dfy` | powers of two, division, wrapping counters; options, distinct elements, pigeonhole, sums |
| `SplitOrder.dfy` | the bit arithmetic of the split-ordered hash map |
| `LockFreeHashMap.dfy`, `LockFreeHashMapProof.dfy`, `LockFreeHashMapSteps.dfy` | the lock-free hash map: machine, list invariants, steps and theorems |
| `LockFreeHashMapFind.dfy` | its search on one list, and the map used by one thread |
| `LockFreeHashMapRaces.dfy`, `LockFreeHashMapAnswers.dfy` | runs of two threads in which `find` answers wrongly, and when it is right with any number of threads |
| `BucketTree.dfy`, `ExtendibleBucket.dfy` | the growing tree of bucket slots: which sizes it can hold, and its machine |
| `SentinelSlots.dfy` | looking up and creating the sentinels of buckets in that tree while it grows |
| `WorkStealing.dfy`, `WorkStealingAnswers.dfy` | the work-stealing deque, its resizable circular array, and what a failing `steal` has seen |
| `HazardStack.dfy` | the lock-free stack on memory that hazard pointers reclaim and that is reused |
| `DeleteLists.dfy` | the linked lists of retired pointers, relinked in place |
| `RetiredLists.dfy`, `HazardSlots.dfy`, `HazardDomain.dfy` | the global list of retired pointers and the list of hazard slots under interference, and `retire` over whole runs |
| `MSQueue.dfy` | the lock-free FIFO queue |
| `TimeoutLock.dfy`, `CLHLock.dfy`, `MCSLock.dfy`, `ArrayLock.dfy`, `TicketLock.dfy` | the queue locks |
| `BucketTable.dfy`, `RefinableMap.dfy`, `StripedMap.dfy` | chained hash tables, their rebuilding, and the two locking protocols |
| `HierarchyMutex.dfy` | deadlock freedom by lock levels |
| `PrefixSum.dfy` | the parallel prefix sum |

## Findings

Five properties one would expect of the code do not hold of it as it stands.  For each there is a run
that shows it and the exact condition under which the property holds, in terms of what a caller
chooses.

- `LockFreeList::get` trusts the mark it read with the link that led it to a node, and ignores the
  node's own mark.  So `find` can miss a key that is in the map throughout the call and return the
  value of one that is not.  It happens while a `remove` is between its two CASes
  (`PresentKeyNotFound`, `RemovedKeyFound`), and to a search that stood on a node while it was marked
  and unlinked, although no linked node was marked whenever the search took a step
  (`MissedWithoutMark`).  It outlives every call: if the unlinking CAS of `remove` has failed, the
  marked node stays linked, and a `find` that runs later and undisturbed answers wrongly
  (`PresentKeyMissedLater`, `RemovedKeyFoundLater`).  In all runs of `n` threads every `find` answers
  as the map does at some instant of its call exactly when `n` is at most 1 or nobody calls `remove`
  (`LockFreeHashMapAnswers.AlwaysRightIff`).  With any number of threads, a call during which no
  linked node is marked is right (`CleanFindIsRight`).  On a list that does not change, `get` is right
  exactly when the key's node and the one before it are both marked or both unmarked
  (`GetIsRightIff`).
- The bucket tree outgrows its slots unless the base array has at most 512 elements and the initial
  size is at most 1024 (`AlwaysFitsIff`).  With the default base array of 1024 elements slots are
  missing after every tenth extension and only then (`DefaultFitsIff`): after ten, bucket 1024 shares
  the slot of bucket 0 (`DefaultAliases`); after twenty, a bucket below the size has a child index
  beyond its array (`DefaultOverruns`).  For the map this means that with a base array of 1024
  elements or more all look-ups of all runs return a filled slot to start from exactly when the size
  never exceeds twice the base array, or there is one thread and the size never exceeds 2^20
  (`SentinelSlots.AlwaysRightIff`); with the default, up to 2^11 buckets, or 2^20 for one thread
  (`DefaultIsRightIff`).  Sharing a slot is harmless in itself, but a thread that found the shared slot
  filled and then looks its bucket up again under a new root returns the bucket's own, null slot
  (`NullReturned`).
- A `steal` that returns false need not have seen the queue empty nor lost its task to anybody: `pop`
  lowers `mBottom` before it has taken anything, which hides the last task (`UnexplainedNull`).  Each
  failing `steal` saw the queue empty, or saw the owner reach for the last task, or somebody else took
  a task during the call (`NullOfSteal`); the second case can be ruled out exactly when there is no
  thief or the owner never pops (`WorkStealingAnswers.AlwaysRightIff`).
- The array lock excludes in all runs of `n` threads of which at most `k` are queued at a time exactly
  when `n` or `k` is at most 64 (`ExclusiveIff`).
- With all threads outside, the ticket lock is free exactly if the served ticket has not carried into
  the next ticket, which it does every 2^32 rounds (`FreeLockIsFreeIff`); after 2^32 rounds of one
  thread the next `lock` waits for ever (`FreeLockIsNeverGranted`).

## Model

| member | source | states |
|---|---|---|
| SplitOrder.ReverseLoop | LockFreeDataStructure/HashMap/LockFreeHashMap.hpp:360-370 | The bit-reversing loop computes the reversal that the order proofs are about, for every word width. |
| SplitOrder.ReverseInvolution | LockFreeDataStructure/HashMap/LockFreeHashMap.hpp:360-370 | Reversing a word twice gives it back. |
| SplitOrder.KeyShape | LockFreeDataStructure/HashMap/LockFreeHashMap.hpp:371-378 | Sentinel keys end in 00, element keys in 01 and the last node's key in 11; an element's key is one above its full-hash sentinel. |
| SplitOrder.SplitOrderInterval | LockFreeDataStructure/HashMap/LockFreeHashMap.hpp:371-378 | With `2^k` buckets an element lies after the sentinel of its bucket and before every later sentinel; distinct buckets have distinct sentinels. |
| SplitOrder.BucketIsInterval | LockFreeDataStructure/HashMap/LockFreeHashMap.hpp:371-378 | An element is in bucket `i` if and only if its key lies between sentinel `i` and all larger sentinels: each bucket is one contiguous interval. |
| SplitOrder.DoublingSplitsBucket | LockFreeDataStructure/HashMap/LockFreeHashMap.hpp:371-378 | Doubling the buckets cuts each interval in two at the new sentinel and moves no element. |
| SplitOrder.GetParentIndex | LockFreeDataStructure/HashMap/LockFreeHashMap.hpp:393-402 | The loop clears the highest set bit of the index. |
| SplitOrder.ParentPrecedes | LockFreeDataStructure/HashMap/LockFreeHashMap.hpp:393-410 | The parent is a smaller index with a smaller sentinel key, so inserting sentinels recursively terminates and walks forward. |
| SplitOrder.LowIsMod | LockFreeDataStructure/HashMap/LockFreeHashMap.hpp:442 | The bucket of a hash value, `hashValue % bucketSize`, is its lowest bits, which is what the order proofs are about. |
| LockFreeHashMapSteps.StepKeeps | LockFreeDataStructure/HashMap/LockFreeHashMap.hpp:237-309 | Every atomic step of every thread, in `insert`, `remove`, `find`, sentinel insertion and growth, keeps the list invariants (one sorted chain, sentinels unmarked and unique, marked nodes frozen, unmarked published nodes reachable, keys unique) and does to the abstract map exactly what its event says. |
| LockFreeHashMapSteps.NoFault | LockFreeDataStructure/HashMap/LockFreeHashMap.hpp:237-309 | No step dereferences null or an unallocated node, `get` reads a key only of a node that has one, and the assertions at lines 247, 256, 342 and 423 hold. |
| LockFreeHashMapSteps.CallsAreAtomic | LockFreeDataStructure/HashMap/LockFreeHashMap.hpp:310-358 | Linearizability of `add` and `remove`: a call that returns true has changed the map exactly once between its begin and its return; one that returns false has not, and saw the key present (absent) at some instant of the call. A `find` changes nothing. |
| LockFreeHashMapSteps.EventsAreUpdates | LockFreeDataStructure/HashMap/LockFreeHashMap.hpp:310-358 | Each successful linking CAS adds an absent key and each successful marking CAS removes a present one. |
| LockFreeHashMapSteps.ListIsTheMap | LockFreeDataStructure/HashMap/LockFreeHashMap.hpp:213-285 | In every reachable state the chain from the head is sorted, holds each key at most once unmarked even under hash collisions, and its unmarked elements are exactly the map. |
| LockFreeHashMapSteps.MarkedIsFrozen | LockFreeDataStructure/HashMap/LockFreeHashMap.hpp:250-283 | Once a node is marked it never changes again. |
| LockFreeHashMapSteps.RunsAreSafe | LockFreeDataStructure/HashMap/LockFreeHashMap.hpp:403-498 | In every reachable state each running call of `insert`, `remove` and `find` can take its next step without a fault, through sentinel insertion and growth of the bucket table. |
| LockFreeHashMapSteps.QuiescentSize | LockFreeDataStructure/HashMap/LockFreeHashMap.hpp:466-492 | With no call in progress `mSize` is the number of elements, in 32-bit arithmetic. |
| LockFreeHashMapFind.Get | LockFreeDataStructure/HashMap/LockFreeHashMap.hpp:286-309 | Started at any linked sentinel before the key, the search loop finds the one node of the key, if linked, and returns its value unless the node before it is marked. |
| LockFreeHashMapFind.GetIsRightIff | LockFreeDataStructure/HashMap/LockFreeHashMap.hpp:286-309 | On any one list that satisfies the invariant `get` answers as the map does if and only if the key's node and its predecessor are both marked or both unmarked. |
| LockFreeHashMapRaces.PresentKeyNotFound | LockFreeDataStructure/HashMap/LockFreeHashMap.hpp:286-309 | A run of two threads in which `find` returns nothing for a key that is in the map from the begin of the call to its return, while a `remove` is between its CASes. |
| LockFreeHashMapRaces.RemovedKeyFound | LockFreeDataStructure/HashMap/LockFreeHashMap.hpp:286-309 | A run of two threads in which `find` returns the value of a key that is not in the map at any instant of the call, while a `remove` is between its CASes. |
| LockFreeHashMapRaces.MissedWithoutMark | LockFreeDataStructure/HashMap/LockFreeHashMap.hpp:286-309 | A run in which `find` misses a key that is in the map throughout the call, although no linked node is marked when the call begins, at any of its steps, or when it returns. |
| LockFreeHashMapRaces.PresentKeyMissedLater | LockFreeDataStructure/HashMap/LockFreeHashMap.hpp:333-358 | A run in which `find` begins when no call is in progress, nobody else takes a step until it returns, and it misses a key that is in the map throughout. |
| LockFreeHashMapRaces.RemovedKeyFoundLater | LockFreeDataStructure/HashMap/LockFreeHashMap.hpp:333-358 | Likewise a run in which an undisturbed `find` returns the value of a key that is in the map at no instant of the call. |
| LockFreeHashMapAnswers.CleanFindIsRight | LockFreeDataStructure/HashMap/LockFreeHashMap.hpp:286-309 | Whatever other threads do: if no linked node is marked in any state from the begin of a `find` to its return, the answer is the map's at some instant of the call. |
| LockFreeHashMapAnswers.FindsWithoutRemoves | LockFreeDataStructure/HashMap/LockFreeHashMap.hpp:466-498 | In every run without `remove`, of any number of threads that insert, find and grow the table, every `find` answers as the map does at some instant of the call. |
| LockFreeHashMapAnswers.AlwaysRightIff | LockFreeDataStructure/HashMap/LockFreeHashMap.hpp:466-498 | In all runs of `n` threads every `find` answers as the map does at some instant of the call if and only if `n` is at most 1 or nobody calls `remove`. |
| LockFreeHashMapFind.SoloRun | LockFreeDataStructure/HashMap/LockFreeHashMap.hpp:333-358 | In a run of one thread every unlinking CAS succeeds: no marked node stays linked except the victim inside `remove`. |
| LockFreeHashMapFind.SequentialCall | LockFreeDataStructure/HashMap/LockFreeHashMap.hpp:466-498 | In a run of one thread, with sentinels created lazily and doublings at any time, every returning `insert`, `remove` and `find` answers as a simple map does and does to the map what a simple map's operation does. |
| LockFreeHashMapFind.SequentialMap | LockFreeDataStructure/HashMap/LockFreeHashMap.hpp:466-498 | The whole history of answers of a run of one thread is that of a simple map, starting empty, under the same calls. |
| BucketTree.PowLoop | LockFreeDataStructure/HashMap/LockFreeHashMap.hpp:72-80 | The loop computes the power. |
| BucketTree.ExtendFits | LockFreeDataStructure/HashMap/LockFreeHashMap.hpp:149-160 | With a base array of at most 512 elements `extend` never makes the size exceed the slots. |
| BucketTree.AlwaysFitsIff | LockFreeDataStructure/HashMap/LockFreeHashMap.hpp:139-160 | After any number of extensions there is a slot for every index, if and only if the base array has at most 512 elements and the initial size is at most 1024. |
| BucketTree.FaithfulIff | LockFreeDataStructure/HashMap/LockFreeHashMap.hpp:97-123 | The index arithmetic of `getImpl` stays in range and gives distinct places for the indices below `n` if and only if `n` is at most the number of slots. |
| BucketTree.DefaultAliases | LockFreeDataStructure/HashMap/LockFreeHashMap.hpp:153 | With the default base array, ten extensions make bucket 1024 and bucket 0 the same slot. |
| BucketTree.DefaultFitsIff | LockFreeDataStructure/HashMap/LockFreeHashMap.hpp:149-160 | With the default base array and initial size there is a slot for every index after `n` extensions if and only if `n` is 0 or no multiple of ten. |
| BucketTree.DefaultOverruns | LockFreeDataStructure/HashMap/LockFreeHashMap.hpp:97-123 | After twenty extensions of the default table, bucket 2^20 is below its size and the child index computed for it is 1024, beyond the array. |
| BucketTree.NewRootKeepsPaths | LockFreeDataStructure/HashMap/LockFreeHashMap.hpp:124-137 | A new root leaves every existing index on its old path. |
| ExtendibleBucket.StepKeeps | LockFreeDataStructure/HashMap/LockFreeHashMap.hpp:97-165 | Every step of concurrent `operator[]` and `extend` keeps one tree in which each linked node has its own height and prefix, and keeps the size within its slots. |
| ExtendibleBucket.RunsAreSafe | LockFreeDataStructure/HashMap/LockFreeHashMap.hpp:97-165 | In every run every child index is within its array and every node exists. |
| ExtendibleBucket.SizeFits | LockFreeDataStructure/HashMap/LockFreeHashMap.hpp:149-165 | In every reachable state the root has a slot below it for every index below the size, however extensions interleave. |
| ExtendibleBucket.SlotsAreFixed | LockFreeDataStructure/HashMap/LockFreeHashMap.hpp:161-165 | Two calls of `operator[]`, by any threads at any instants, refer to the same slot if and only if their indices are equal, through concurrent creation of nodes and extension. |
| SentinelSlots.PlaceIsPath | LockFreeDataStructure/HashMap/LockFreeHashMap.hpp:97-123 | The place assumed for an index exists exactly if the indices that `getImpl` computes stay in range, is shared exactly by indices with the same path, and stays under a new root. |
| SentinelSlots.StepKeeps | LockFreeDataStructure/HashMap/LockFreeHashMap.hpp:403-450 | Every step of look-ups, recursive creation of parents and harmless extensions keeps each sentinel in its own bucket's slot and every reference to a slot current. |
| SentinelSlots.AncestorPrecedes | LockFreeDataStructure/HashMap/LockFreeHashMap.hpp:371-410 | The sentinel of any ancestor of a bucket is not behind the bucket's own, so a search may start from it. |
| SentinelSlots.NullReturned | LockFreeDataStructure/HashMap/LockFreeHashMap.hpp:438-450 | With a base array of at least 1024 elements, a run of two threads in which a look-up returns a null slot: another thread's extension gives the table a second level just before the return. |
| SentinelSlots.Overruns | LockFreeDataStructure/HashMap/LockFreeHashMap.hpp:97-123 | With a base array of at least 1024 elements and a size that may reach 2^21 and four times the base array, a run of any number of threads in which a look-up leaves the root's array. |
| SentinelSlots.AlwaysRightIff | LockFreeDataStructure/HashMap/LockFreeHashMap.hpp:403-450 | All look-ups of all runs of `n` threads with a base array of `2^b` elements and a size of at most `2^limit` stay in range and return a filled slot holding an ancestor's sentinel if and only if `n` is 0, `b <= 9`, `limit <= b + 1`, or `n` is 1 and `limit <= 20`. |
| SentinelSlots.DefaultIsRightIff | LockFreeDataStructure/HashMap/LockFreeHashMap.hpp:438-450 | With the default base array that is up to 2^11 buckets, or 2^20 for one thread. |
| WorkStealing.SlotsDiffer | Misc/ThreadPool/ThreadPool.hpp:142-175 | Indices less than a capacity apart never share a slot of the circular array. |
| WorkStealing.CircularArray.Resize | Misc/ThreadPool/ThreadPool.hpp:165-173 | The copying loop builds an array of twice the capacity that is the specification's resized array. |
| WorkStealing.ResizedGet | Misc/ThreadPool/ThreadPool.hpp:165-173 | Every live index holds the same task before and after a resize. |
| WorkStealing.StepKeeps | Misc/ThreadPool/ThreadPool.hpp:185-257 | Every step of the owner and of any thief keeps the invariant that explains the array as a queue, through the owner's transient decrement of `mBottom` and through resizes. |
| WorkStealing.LiveSlotsDiffer | Misc/ThreadPool/ThreadPool.hpp:161-164 | In every explained state live tasks occupy distinct slots. |
| WorkStealing.NoFault | Misc/ThreadPool/ThreadPool.hpp:185-257 | The next step of every thread is defined: indices are never negative where they are used and arrays are never replaced by smaller ones. |
| WorkStealing.RunRefinesQueue | Misc/ThreadPool/ThreadPool.hpp:185-257 | Every step of every run is a step of a double-ended queue: `push` appends, `pop` takes the newest task, `steal` the oldest. |
| WorkStealing.NothingLost | Misc/ThreadPool/ThreadPool.hpp:185-257 | The tasks pushed are at all times exactly those taken by a pop or a steal plus those still queued. |
| WorkStealing.ExactlyOnce | Misc/ThreadPool/ThreadPool.hpp:185-257 | A pushed task has been taken once or is still queued, never both and never twice. |
| WorkStealing.CallsAreAtomic | Misc/ThreadPool/ThreadPool.hpp:185-257 | A `pop` or `steal` that returns a task has taken exactly that task, once; a `pop` that fails found the queue empty during the call and took none; a `steal` that fails took none (what it saw is `WorkStealingAnswers.NullOfSteal`); a `push` publishes its task with its last step. |
| WorkStealing.ReturnedOnce | Misc/ThreadPool/ThreadPool.hpp:203-257 | No task is returned by two calls; a returned task was pushed and is no longer queued. |
| WorkStealing.TopIsMonotone | Misc/ThreadPool/ThreadPool.hpp:203-257 | `mTop` never decreases. |
| WorkStealingAnswers.NullOfSteal | Misc/ThreadPool/ThreadPool.hpp:237-257 | A `steal` that returns false has, at some instant of the call, seen the queue empty or the owner reaching for its one task, or somebody else has taken a task during the call. |
| WorkStealingAnswers.UnexplainedNull | Misc/ThreadPool/ThreadPool.hpp:203-257 | A run in which `steal` returns false although the queue holds a task at every instant of the call and nobody takes one. |
| WorkStealingAnswers.AlwaysRightIff | Misc/ThreadPool/ThreadPool.hpp:203-257 | In all runs every failing `steal` saw the queue empty or lost a task to somebody else if and only if there is no thief or the owner never pops. |
| HazardStack.StepKeeps | LockFreeDataStructure/HazardPointer/HazardPointer.hpp:191-231 | Every step keeps each cell in exactly one place (free, being pushed, on the stack, taken, retired by one thread, on the global list) and every validated hazard pointer safe from every scan in progress. |
| HazardStack.NoUseAfterFree | LockFreeDataStructure/Stack/LockFreeStack.hpp:56-82 | In every explained state no step reads or deletes a freed node. |
| HazardStack.StepRefines | LockFreeDataStructure/Stack/LockFreeStack.hpp:49-82 | Every step does to the abstract stack what its event says. |
| HazardStack.RunRefinesStack | LockFreeDataStructure/Stack/LockFreeStack.hpp:49-82 | Every run refines a stack: each event pushes, pops the top, or is a pop that finds the stack empty. |
| HazardStack.CallsAreAtomic | LockFreeDataStructure/Stack/LockFreeStack.hpp:49-82 | A pop returns the value its own CAS took and returns null only if the stack was empty at some instant of the call; a push that returns has pushed its argument, exactly once. |
| HazardStack.RunsAreSafe | LockFreeDataStructure/HazardPointer/HazardPointer.hpp:35-52 | In every run, with threads joining and leaving and freed cells allocated again, no freed node is read and no cell is deleted twice. |
| HazardStack.PopInstallsSecond | LockFreeDataStructure/Stack/LockFreeStack.hpp:71-72 | No ABA: a pop CAS that succeeds installs the node that is second on the stack at that instant. |
| HazardStack.EveryCellHasAPlace | LockFreeDataStructure/HazardPointer/HazardPointer.hpp:86-143 | In every reachable state every cell is in exactly one of the places a retired or live pointer can be, across thread exits and adoptions. |
| DeleteLists.ScanConserves | LockFreeDataStructure/HazardPointer/HazardPointer.hpp:217-230 | A scan loses nothing and frees nothing twice: what it keeps and what it frees together are what was listed. |
| DeleteLists.ScanSeparates | LockFreeDataStructure/HazardPointer/HazardPointer.hpp:221-228 | It keeps exactly the pointers it found in a hazard slot and frees exactly the others. |
| DeleteLists.ScanBound | LockFreeDataStructure/HazardPointer/HazardPointer.hpp:216-230 | If the pointers are distinct, no more of them survive a scan than it has seen hazard slots. |
| DeleteLists.GlobalDeleteList.Append | LockFreeDataStructure/HazardPointer/HazardPointer.hpp:86-90 | A chain of nodes is put in front of the global list. |
| DeleteLists.LocalDeleteList.Adopt | LockFreeDataStructure/HazardPointer/HazardPointer.hpp:202-215 | All nodes of the global list move, one by one and relinked, to the local list. |
| DeleteLists.LocalDeleteList.Scan | LockFreeDataStructure/HazardPointer/HazardPointer.hpp:216-230 | The filtering loop relinks the kept nodes and frees the rest. |
| DeleteLists.LocalDeleteList.Retire | LockFreeDataStructure/HazardPointer/HazardPointer.hpp:191-198 | Every pointer is afterwards freed, in the local list or in the global list, as often as before; and if each is retired once the local list is at most twice as long as the counter of hazard slots (over whole runs: `HazardDomain.ListsAreBounded`). |
| DeleteLists.LocalDeleteList.Exit | LockFreeDataStructure/HazardPointer/HazardPointer.hpp:112-123 | The list of an exiting thread goes, complete, in front of the global list. |
| HazardSlots.StepKeeps | LockFreeDataStructure/HazardPointer/HazardPointer.hpp:35-56 | Through appends of any threads, retried CASes included, the counter is the number of linked slots and of those about to be linked, and it never decreases. |
| HazardSlots.ScanSeesCounted | LockFreeDataStructure/HazardPointer/HazardPointer.hpp:35-56 | The counter value a scan was decided on, and the number of slots the scan visited while others appended, are at most the counter's value when the scan is done. |
| HazardSlots.CounterGrows | LockFreeDataStructure/HazardPointer/HazardPointer.hpp:52-56 | The counter never decreases, so a bound by an earlier value is one by every later value. |
| HazardDomain.StepKeeps | LockFreeDataStructure/HazardPointer/HazardPointer.hpp:35-231 | Every step of threads that append slots, store hazard pointers, retire, adopt, walk the slots, filter and exit keeps each pointer in one list and each list within its bound. |
| HazardDomain.ListsAreBounded | LockFreeDataStructure/HazardPointer/HazardPointer.hpp:191-231 | In every run a thread that is not inside `retire` has at most twice as many pointers in its list as there are hazard slots counted, whatever other threads append, store, retire and leave behind while it scans. |
| HazardDomain.NothingLost | LockFreeDataStructure/HazardPointer/HazardPointer.hpp:191-231 | In every run each pointer that was retired has been freed or is in a list, as often as it was retired. |
| HazardDomain.OutstandingIsBounded | LockFreeDataStructure/HazardPointer/HazardPointer.hpp:191-231 | When no thread is inside `retire`, at most twice the counter for each thread, and what exited threads have left on the global list, is retired and not freed. |
| RetiredLists.StepKeeps | LockFreeDataStructure/HazardPointer/HazardPointer.hpp:86-99 | Every step of exiting, adopting, retiring and scanning threads keeps each node in one place and the links of every list, although freed nodes are allocated again. |
| RetiredLists.RunsAreSafe | LockFreeDataStructure/HazardPointer/HazardPointer.hpp:86-123 | In every run the next step of an adopting or exiting thread touches only nodes that are not freed. |
| RetiredLists.EveryNodeOnce | LockFreeDataStructure/HazardPointer/HazardPointer.hpp:86-230 | In every run a pointer retired and not freed is in the global list, in one thread's list, or among the nodes one thread has just exchanged out, and in exactly one of these. |
| RetiredLists.ExitPrepends | LockFreeDataStructure/HazardPointer/HazardPointer.hpp:86-123 | The successful CAS of an exiting thread puts its list, complete and in order, in front of what the global list is at that instant. |
| MSQueue.StepKeeps | LockFreeDataStructure/MSQueue/MSQueue.hpp:56-172 | Every step of `push` and `tryPop`, helping included, keeps the chain invariants. |
| MSQueue.StepRefines | LockFreeDataStructure/MSQueue/MSQueue.hpp:56-172 | Every step does to the abstract queue what its event says; `push` takes effect at the data CAS, `tryPop` at the head CAS. |
| MSQueue.NoFault | LockFreeDataStructure/MSQueue/MSQueue.hpp:108-172 | No step dereferences null. |
| MSQueue.RunRefinesQueue | LockFreeDataStructure/MSQueue/MSQueue.hpp:56-172 | Every run refines a FIFO queue: each event appends, removes the oldest value, or is a `tryPop` that finds the queue empty at that instant. |
| MSQueue.CallsAreAtomic | LockFreeDataStructure/MSQueue/MSQueue.hpp:56-172 | A push that returns has appended its argument, once; a `tryPop` that returns a value removed that value, once; one that returns null saw the queue empty during the call and removed nothing. |
| MSQueue.PopsFollowPushes | LockFreeDataStructure/MSQueue/MSQueue.hpp:56-172 | The values pushed are, in order, the values popped followed by the queue's contents. |
| MSQueue.HeadBeforeTail | LockFreeDataStructure/MSQueue/MSQueue.hpp:56-172 | In every reachable state `mHead` is at or before `mTail` on one chain, neither is null, and only the last node may lack data. |
| MSQueue.SetOnce | LockFreeDataStructure/MSQueue/MSQueue.hpp:56-105 | Data and link of a node are each set at most once. |
| MSQueue.RunsAreSafe | LockFreeDataStructure/MSQueue/MSQueue.hpp:56-172 | In every reachable state each running call can take its next step without a fault. |
| TimeoutLock.StepKeeps | Lock/QueueLock/CLHTimeOutQueueLock.inl:2-43 | Every step of `tryLock` and `unlock` keeps the queue of nodes, the owner of every allocated node and the meaning of every `mPred`. |
| TimeoutLock.NoFault | Lock/QueueLock/CLHTimeOutQueueLock.inl:2-43 | In every explained state the node a thread is about to read, write or delete is allocated. |
| TimeoutLock.RunsAreSafe | Lock/QueueLock/CLHTimeOutQueueLock.inl:2-43 | No run reads, writes or deletes a deleted node, although cells are reused. |
| TimeoutLock.MutualExclusion | Lock/QueueLock/CLHTimeOutQueueLock.inl:2-43 | At most one thread has the lock under any pattern of arrivals, timeouts and unlocks. |
| TimeoutLock.GrantedInArrivalOrder | Lock/QueueLock/CLHTimeOutQueueLock.inl:4-25 | The lock is granted in the order of the tail exchanges, whoever times out in between. |
| TimeoutLock.FrontIsHeldOrReleased | Lock/QueueLock/CLHTimeOutQueueLock.cpp:17-28 | The lock is never lost: the front of a non-empty queue is the holder's node or a released one. |
| TimeoutLock.SomeFirstWaiter | Lock/QueueLock/CLHTimeOutQueueLock.inl:18-32 | If nobody has the lock and someone waits, some waiter has only released or abandoned nodes before it. |
| TimeoutLock.FirstWaiterAcquires | Lock/QueueLock/CLHTimeOutQueueLock.inl:11-32 | Such a waiter, wherever it is between its first look and its last, running alone deletes the nodes before it and gets the lock, unless it has decided to give up. |
| TimeoutLock.NoLostRelease | Lock/QueueLock/CLHTimeOutQueueLock.inl:11-42 | In every reachable state in which nobody has the lock and some thread wants it, the waiting threads alone can go on, those that give up leaving, until one of them has the lock. |
| TimeoutLock.QuiescentChain | Lock/QueueLock/CLHTimeOutQueueLock.cpp:7-16 | With no call in progress the chain from `mTail` visits every allocated node exactly once and ends at the available mark. |
| TimeoutLock.DyingLock.Destroy | Lock/QueueLock/CLHTimeOutQueueLock.cpp:7-16 | The destructor's loop deletes only allocated nodes and leaves none. |
| TimeoutLock.QuiescentRunsCanBeDestroyed | Lock/QueueLock/CLHTimeOutQueueLock.cpp:7-16 | Every run that has come to rest meets the destructor's precondition. |
| CLHLock.StepKeeps | Lock/QueueLock/CLHQueueLock.cpp:17-28 | Every step keeps the chain of nodes in the queue, their flags, and who watches which node. |
| CLHLock.RunsAreSafe | Lock/QueueLock/CLHQueueLock.cpp:17-28 | In every run each thread inside `lock` or `unlock` finds the nodes it touches. |
| CLHLock.NodesArePartitioned | Lock/QueueLock/CLHQueueLock.cpp:23-28 | In every run each node is either in the queue or the spare of exactly one thread outside it. |
| CLHLock.WatchedIsNotReused | Lock/QueueLock/CLHQueueLock.cpp:17-28 | No thread reuses a node that a waiting or holding thread still watches. |
| CLHLock.MutualExclusion | Lock/QueueLock/CLHQueueLock.cpp:17-28 | At most one thread has the lock. |
| CLHLock.ServedInOrder | Lock/QueueLock/CLHQueueLock.cpp:17-28 | The lock is held and released in the order of the tail exchanges. |
| CLHLock.FirstCanEnter | Lock/QueueLock/CLHQueueLock.cpp:21 | The first waiting thread finds its predecessor's flag down. |
| MCSLock.StepKeeps | Lock/QueueLock/MCSQueueLock.cpp:7-35 | Every step keeps the queue from holder to tail and the meaning of every link and flag. |
| MCSLock.RunsAreSafe | Lock/QueueLock/MCSQueueLock.cpp:31-33 | `assert(next->mLocked)` never fails and no null node is touched. |
| MCSLock.LinkIsComing | Lock/QueueLock/MCSQueueLock.cpp:29 | An unlocker that spins on a null link has exactly one successor that is about to link itself. |
| MCSLock.MutualExclusion | Lock/QueueLock/MCSQueueLock.cpp:7-35 | At most one thread has the lock. |
| MCSLock.ServedInOrder | Lock/QueueLock/MCSQueueLock.cpp:7-35 | The lock is granted in the order of the tail exchanges. |
| ArrayLock.StepKeeps | Lock/QueueLock/ArrayQueueLock.cpp:11-21 | While at most 64 threads are queued, of any number in all, every step keeps the ring of flags and the queue of tickets, through wrap-around of the 32-bit counter. |
| ArrayLock.AtMostOneFlag | Lock/QueueLock/ArrayQueueLock.cpp:5-21 | In a run in which at most 64 threads are queued at a time at most one flag is up. |
| ArrayLock.ServedInOrder | Lock/QueueLock/ArrayQueueLock.cpp:11-21 | In such a run threads are served in the order of their `fetch_add`. |
| ArrayLock.ExclusiveIff | Lock/QueueLock/ArrayQueueLock.cpp:11-21 | All runs of `n` threads with at most `k` queued at a time exclude if and only if `n` or `k` is at most 64. |
| TicketLock.ZipUnzip | Lock/QueueLock/TicketLock.hpp:15-22 | Packing and unpacking the two tickets is a round trip. |
| TicketLock.TicketsInOrder | Lock/QueueLock/TicketLock.hpp:26-40 | With fewer than 2^32 calls of `lock` the word is the tickets handed out over the tickets served, and the holder is the next in ticket order. |
| TicketLock.MutualExclusion | Lock/QueueLock/TicketLock.hpp:26-40 | With fewer than 2^32 calls of `lock` at most one thread has the lock. |
| TicketLock.WordIs | Lock/QueueLock/TicketLock.hpp:26-40 | In every run the word is 2^32 times the calls that took a ticket plus the finished calls of `unlock`, modulo 2^64. |
| TicketLock.FreeLockIsFreeIff | Lock/QueueLock/TicketLock.hpp:26-40 | In every run, when all threads are outside, the next ticket is the one served if and only if the rounds divided by 2^32 are a multiple of 2^32; below 2^64 rounds, if and only if there were fewer than 2^32. |
| TicketLock.FreeLockIsNeverGranted | Lock/QueueLock/TicketLock.hpp:26-40 | A run of 2^32 rounds of one thread, after which its next `lock` waits on the free lock and no step changes anything. |
| BucketTable.WriteRepresents | LockBasedDataStructure/HashMap/RefinableThreadSafeHashMap.hpp:446-457 | Updating in place or appending changes the represented map at that key only and keeps keys unique and in their buckets. |
| BucketTable.EraseRepresents | LockBasedDataStructure/HashMap/RefinableThreadSafeHashMap.hpp:474-479 | Erasing the found pair removes that key only. |
| BucketTable.RehashKeeps | LockBasedDataStructure/HashMap/RefinableThreadSafeHashMap.hpp:395-407 | Rebuilding with any number of buckets represents the same map, with every pair in the bucket its hash value selects and no duplicates. |
| BucketTable.BucketMap.Find | LockBasedDataStructure/HashMap/StripedThreadSafeHashMap.hpp:138-147 | `find` answers as the map does. |
| BucketTable.BucketMap.AddOrUpdate | LockBasedDataStructure/HashMap/StripedThreadSafeHashMap.hpp:148-175 | The map gets the key's new value and nothing else; the bucket count doubles exactly when a new key exceeds the load threshold. |
| BucketTable.BucketMap.Remove | LockBasedDataStructure/HashMap/StripedThreadSafeHashMap.hpp:176-189 | The map loses the key and nothing else, and `mSize` stays its cardinality. |
| BucketTable.BucketMap.Rehash | LockBasedDataStructure/HashMap/StripedThreadSafeHashMap.hpp:116-128 | The nested loops compute the rebuilt table and keep the map. |
| RefinableMap.StepKeeps | LockBasedDataStructure/HashMap/RefinableThreadSafeHashMap.hpp:345-413 | Every step of every thread keeps the protocol: who holds which mutex of which vector, one rehasher at a time, and a rehasher that cannot pass a mutex whose holder is inside. |
| RefinableMap.HolderRuns | LockBasedDataStructure/HashMap/RefinableThreadSafeHashMap.hpp:361-394 | No deadlock: whoever holds the mutex a thread waits for can itself take a step. |
| RefinableMap.RebuildIsExclusive | LockBasedDataStructure/HashMap/RefinableThreadSafeHashMap.hpp:386-411 | While the table is rebuilt, swapped and its mutexes published no thread is inside a validated critical section. |
| RefinableMap.InsideIsExclusive | LockBasedDataStructure/HashMap/RefinableThreadSafeHashMap.hpp:345-373 | A thread inside holds a mutex of the current vector (a stale one never validates), mutexes and buckets are equally many, and two threads inside work on different buckets. |
| RefinableMap.RunRefinesMap | LockBasedDataStructure/HashMap/RefinableThreadSafeHashMap.hpp:430-480 | Each operation answers and changes the abstract map atomically at the instant of its bucket operation; rebuilding changes nothing. |
| RefinableMap.CallsAreAtomic | LockBasedDataStructure/HashMap/RefinableThreadSafeHashMap.hpp:430-480 | Every call operates on the abstract map exactly once between its begin and its return and returns the answer it got then. |
| RefinableMap.LocksMatchBuckets | LockBasedDataStructure/HashMap/RefinableThreadSafeHashMap.hpp:406-411 | Outside the gap between swap and publication there are as many mutexes as buckets. |
| RefinableMap.RunsAreSafe | LockBasedDataStructure/HashMap/RefinableThreadSafeHashMap.hpp:345-480 | In every run indices stay in range, mutexes are released by their holders, and buckets are used by one thread at a time. |
| RefinableMap.QuiescentSize | LockBasedDataStructure/HashMap/RefinableThreadSafeHashMap.hpp:451-478 | With no call in progress `mSize` is the number of keys. |
| StripedMap.StepKeeps | LockBasedDataStructure/HashMap/StripedThreadSafeHashMap.hpp:81-189 | Every step keeps the mutexes, the table and the counter, and does to the abstract map what its event says. |
| StripedMap.SameStripe | LockBasedDataStructure/HashMap/StripedThreadSafeHashMap.hpp:81-95 | Keys in one bucket always share one mutex. |
| StripedMap.StripesGuardBuckets | LockBasedDataStructure/HashMap/StripedThreadSafeHashMap.hpp:81-129 | In every run the bucket count is a power-of-two multiple of the mutex count, threads inside operations use different buckets, and nobody is inside during a rebuild. |
| StripedMap.SomeoneRuns | LockBasedDataStructure/HashMap/StripedThreadSafeHashMap.hpp:101-111 | No deadlock: whenever a thread waits for a mutex some thread can take a step. |
| StripedMap.RunRefinesMap | LockBasedDataStructure/HashMap/StripedThreadSafeHashMap.hpp:138-189 | Each operation answers and changes the abstract map atomically at the instant of its bucket operation. |
| StripedMap.CallsAreAtomic | LockBasedDataStructure/HashMap/StripedThreadSafeHashMap.hpp:138-189 | Every call operates on the abstract map exactly once between its begin and its return, and the result it returns is the answer it got then. |
| StripedMap.QuiescentSize | LockBasedDataStructure/HashMap/StripedThreadSafeHashMap.hpp:157-187 | With no call in progress `mSize` is the number of keys. |
| HierarchyMutex.StepKeeps | Lock/HierarchicalMutex/HierarchicalMutex.cpp:4-41 | Every step of `lock`, `try_lock` and `unlock` keeps each thread's stack of held mutexes and the recorded levels. |
| HierarchyMutex.HeldLevelsDecrease | Lock/HierarchicalMutex/HierarchicalMutex.cpp:4-30 | In every run the levels a thread holds decrease strictly, topped by `sThisThreadHierarchy`. |
| HierarchyMutex.UnlockPassesIff | Lock/HierarchicalMutex/HierarchicalMutex.cpp:23-31 | Unlocking a held mutex passes the check if and only if it was locked last. |
| HierarchyMutex.RunsNeverDeadlock | Lock/HierarchicalMutex/HierarchicalMutex.cpp:17-22 | In every reachable state the wait-for graph has no cycle. |
| PrefixSum.LayoutIsOk | ParallelAlgorithm/ParallelAlgorithm.hpp:104-118 | A non-empty range is cut into at least one block and no block is empty, for every hardware thread count. |
| PrefixSum.BlocksPartition | ParallelAlgorithm/ParallelAlgorithm.hpp:162-173 | Every cell is in exactly one block. |
| PrefixSum.WritesOwnBlock | ParallelAlgorithm/ParallelAlgorithm.hpp:119-147 | No cell and no promise is written by two workers. |
| PrefixSum.EverySchedulePrefixSums | ParallelAlgorithm/ParallelAlgorithm.hpp:104-173 | Whatever the schedule, a run that can go no further has finished with exactly the sequential partial sums. |
| PrefixSum.RunsEnd | ParallelAlgorithm/ParallelAlgorithm.hpp:119-161 | Every schedule ends: no run is longer than the work there is at the start. |

## Left out

- Weak memory orders: every atomic operation is sequentially consistent. Where a spurious failure of a weak compare-and-swap repeats the attempt with the same values it is not a step of its own.
- Progress under fair scheduling: only the safety forms (no lost hand-over, no wait cycle, solo progress of a waiter) are proved.
- Concurrent linearizability of `LockFreeList::get`: it is false of the code; `LockFreeHashMapAnswers.AlwaysRightIff` says for which runs it holds.
- LockFreeHashMapFind.Get: the method runs on one state of the list; the interleaved search, with its sentinel created when missing, is `Find` of the machine.
- LockFreeHashMapFind.GetIsRightIff: about one list; the interleaved search is the subject of `LockFreeHashMapAnswers`.
- LockFreeHashMapSteps.RunsAreSafe: growth stops at an exponent two below the width of the hash type, and bucket slots are an unbounded map; which sizes the tree of slots can hold is `BucketTree.AlwaysFitsIff`, and which sizes leave the look-ups right is `SentinelSlots.AlwaysRightIff`.
- SentinelSlots.StepKeeps: finding a sentinel's position and linking it is one step, which `LockFreeHashMap` spells out; a thread may extend the table between any two look-ups, whatever its load.
- Address reuse in the hash map and in `MSQueue`: nodes have fresh identities there; storing hazard pointers and re-reading the link changes no list state and is not a step of its own.  The stack models hazard pointers, reuse, joining and exiting threads in full.
- LockFreeHashMapSteps.CallsAreAtomic: buckets double only while the exponent stays at least two below the width of the hash type, which is where split ordering is defined. The source computes the bucket count as `1 << exp` on an `int`, which overflows at exponent 31 even if the hash type is wider; the model does not have that overflow.
- LockFreeHashMapSteps.ListIsTheMap: bucket slots are a map from indices to places; that distinct indices have distinct slots is `ExtendibleBucket.SlotsAreFixed`, under its condition on the base array.
- ExtendibleBucket.StepKeeps: sizes and powers are unbounded numbers; the elements in the slots are not part of the tree.
- HazardStack.StepKeeps: whether a thread scans after retiring is a free choice, so the theorems hold for every threshold; delete lists are sets there, and linked lists in `DeleteLists.dfy`.
- DeleteLists.LocalDeleteList.Adopt: the exchange of the global head and the loop are run by one thread without interference; `RetiredLists` interleaves them.
- DeleteLists.GlobalDeleteList.Append: the CAS loop runs without interference; `RetiredLists` interleaves it.
- RetiredLists.StepKeeps: a scan is one step that keeps any part of the thread's list; which part is `DeleteLists.LocalDeleteList.Scan`, and the walk over the slots that decides it is in `HazardDomain`.
- HazardDomain.StepKeeps: the counters are unbounded numbers; adopting the exchanged list, filtering one's own list and the exit are one step each.
- WorkStealing.StepKeeps: `mTop` and `mBottom` are unbounded, and the copy inside `push` is one step, since thieves only read the array it replaces; `CircularArray.Resize` is the loop.
- RefinableMap.StepKeeps: old mutex vectors are never freed, so the hazard pointer that protects them has no state; rebuilding one bucket is one step.
- The hash function, the clock (a waiting thread may give up at any turn), thread creation, exceptions from allocation and the destructors of the containers are left out, except the timeout lock's destructor.
- TicketLock.TicketsInOrder: holds for fewer than 2^32 calls of `lock`, which is the property the code has.
- PrefixSum.LayoutIsOk: an empty range divides by zero in the source; the range is non-empty here.
- CompositeQueueLock and HierarchicalCLHQueueLock: their mutual exclusion depends on node reuse that this project does not model.
- Peterson lock, latch, barrier, shared lock, fixed-size map, mutex-based stack and queue, futures: small monitors that would add only easy members.
- The thread pool around the deque, the interruptible threads, and the other parallel algorithms.
