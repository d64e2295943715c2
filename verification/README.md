# Verified core of the chess mate solver and its vendored folly

This project models, in Dafny, the parts of the repository that are hardest to get right
and proves what they are for:

* folly's lock-free protocols as step systems. The state is the shared words plus one
  program counter per thread, a step is one load, store, compare-and-swap, futex sleep or
  futex wake, and any thread may take the next step. What is proved holds in every state of
  every run, for any number of threads: `MPMCQueue`, `LifoSem`, `IndexedMemPool`,
  `AtomicHashMap`, `ConcurrentSkipList`.
* the chess solver: boards that moves change and restore in place, move generators, the
  incremental legality test, and the forced-mate search with its two caches.
* three self-contained algorithms on buffers: `GroupVarint` streaming, decimal `Conv`, and
  the needle search of `FBString`.

`dafny verify dfyconfig.toml` checks everything.

## Reading guide

| files | contents |
|---|---|
| `QueueLayout`, `TurnWord` | tickets, slots and strides; the 32-bit futex word of a turn sequencer |
| `MPMCQueue`, `MPMCQueueProof` | the ticketed bounded queue and its theorems |
| `LifoSem`, `LifoSemHead`, `LifoSemProof` | the semaphore with its Baton handoff; its packed 64-bit head; its theorems |
| `IndexedMemPool`, `IndexedMemPoolProof` | the striped free lists and their theorems |
| `AtomicHashMap`, `AtomicHashMapProof` | the growing hash map and its theorems |
| `SkipList`, `SkipListProof`, `SkipListSet` | the skip list with its locks and growing head; its structure and progress; the set it stands for |
| `ChessModel`, `ChessBoard`, `ChessMoves`, `ChessLegality` | boards as values, the mutable board, generators, legality |
| `ChessSearch` | the mate search over any finite game |
| `ChessGame` | chess as such a game: legal moves and forced mate |
| `ChessCalm`, `ChessStudy` | when signatures of the squares are enough; two roots on which they are not |
| `GroupVarintStream`, `GroupVarintBytes`, `GroupVarint` | the stream format for any codec, the byte formats, encoder and decoder on buffers |
| `Conv`, `FBStringFind` | decimal conversion, needle search |
| `Common`, `DivMod` | an option type, two facts about division |

Assumptions made by the step systems:

* memory is sequentially consistent;
* sequence numbers, tags and tickets do not wrap between a load and its compare-and-swap
  (they are unbounded here; `LifoSemHead` and `TurnWord` treat the packed words exactly);
* a futex wait compares the word and goes to sleep in one step, and may wake spuriously;
* thread-cached counters act as atomic integers;
* fewer than 2^24 threads use one queue, so that truncated turns stay unambiguous.

Each step system also carries history that the code does not store (who owns what, which
values were brought and delivered). Steps write it. Where a guard reads it, it says what a
caller or the node pool guarantees (a recycled index is the caller's, an allocated wait node is
free) or bounds an index; `RunningThreadCanStep` of each system shows that guards never hold
up a thread inside a call, except at a lock that is held, a node somebody else is linking or a
pool that is empty.

Where the code falls short of what it promises, the code is modelled as it is:

* After the opponent has castled, `OneRound::canMove` tests whether the castled rook attacks
  the square moved to instead of the king (chess/one_round.cc:103-114), and `isChecking` does
  not see that rook (chess/one_round.cc:68-77). `ChessLegality.CastledRookForbidsLegalMove`
  gives a legal move that is refused, `ChessLegality.CastledRookCheckIsMissed` an illegal one
  that is accepted with either value of the flag. `ChessLegality.AnswerIsRight` says exactly
  when the answer is right, `ChessLegality.OneRound.IsChecking` when its own is. The generators
  never castle (next item), so this takes a castling move made by positions, as
  `Board::makeMove` does (chess/board.cc:152-171).
* `King::canCastle` asks the king's own square to be empty (chess/king.cc:50-58), so the
  generator never castles, whatever the flag (`ChessMoves.NeverCastles`).
* On boards that no legal play leads to, `canMove` can overlook a line opened by a pawn taken
  en passant (`ChessLegality.PassedPawnIsMissed`); after a real double step it cannot
  (`ChessLegality.EnPassantIsDecided`).
* `Board::hash` looks at the squares only (chess/board.h:115-123), so the caches take positions
  for equal that differ in whether a pawn may be taken en passant. On calm roots, where no such
  capture can ever arise because of where the pawns stand, the search is right with these
  signatures (`ChessCalm.Solve`). Elsewhere it can fail: all searches of a process share one
  cache (chess/one_round.cc:17), and `ChessStudy.SharedCacheMissesMate` searches two roots in
  turn, of which the second has a mate in one that is answered by the first one's failure.
  `ChessCalm.FullSignatureIsOk` says what a signature would have to tell apart.
* `ConcurrentSkipList::find` does not ask whether a node is fully linked
  (folly/ConcurrentSkipList.h:245-251), while `remove` does: a thread can find a key, fail to
  remove it with nobody else removing, and find it again (`SkipListSet.FoundButNotRemoved`).
  What `find` returns beyond the set are exactly nodes of adds that have not finished
  (`SkipListSet.FindReports`).
* `SolutionCache::updateCache` falls through to the mate bound when a failure is reported at a
  height already known to fail (chess/solution_cache.cc:40-46). `ChessSearch.StrayUpdate`
  shows the wrong entry and `ChessSearch.FailureKeepsUpper` exactly when the bound survives;
  the search never gets there, because between a missed lookup and its update only smaller
  heights are written.
* `OneRound::isCircularMove` compares squares, not men (chess/one_round.cc:295-303). A move it
  discards puts the man back where it was exactly when the move before was no promotion
  (`ChessGame.CircularTakesBack`); `ChessGame.PromotedManIsCircular` is a game in which a queen
  just promoted may not go back to where the pawn stood. Mates that need a discarded move can be
  overlooked; without such moves in the lines of a search none is (`ChessCalm.Solve`).
* A search for `INT_MAX` levels takes the "no mate known" bound for a mate
  (`ChessSearch.UnknownReadAsMate`), so `ChessSearch` asks for fewer levels.
* A signature whose position is solved again at a smaller height keeps its first move in the
  solution forest and collects the replies to both (chess/one_round.cc:270-293). The first
  solution stays whole (`ChessSearch.StoredSolutionMates`).
* `IndexedMemPool` increments `size_` past the capacity. It stays below actualCapacity_ plus the
  number of threads, which is reached (`IndexedMemPoolProof.SizeReachesBound`): the 32-bit
  counter can wrap exactly when their sum passes 2^32.
* `basic_fbstring::find` returns `pos` for an empty needle even past the end of the string
  (folly/FBString.h:1771); `FBStringFind.Find` says that nothing else breaks its promise.

## Model

| member | source | states |
|---|---|---|
| `QueueLayout.ComputeStride` | folly/MPMCQueue.h:390-408 | the stride is coprime to the capacity; it is the first prime of the table that is admissible and separates consecutive tickets as far as any other admissible one does, or 1 if none separates them by more than one slot |
| `QueueLayout.SeparationIsDistance` | folly/MPMCQueue.h:396-413 | what the loop makes as large as it can is the distance, the shorter way around the ring, between the slots of any two consecutive tickets |
| `QueueLayout.SlotSharedIffCongruent` | folly/MPMCQueue.h:411-413 | with a coprime stride two tickets share a slot if and only if they are congruent modulo the capacity |
| `QueueLayout.SlotAndLapIdentifyTicket` | folly/MPMCQueue.h:411-419 | slot and turn together name one ticket |
| `QueueLayout.MachineIndexIdentifiesTicket` | folly/MPMCQueue.h:411-419 | the same of the 64-bit product the code computes, while the product fits |
| `QueueLayout.StridedLayoutIsGood` | folly/MPMCQueue.h:411-419 | laps of a slot follow one another without gaps, one ticket per lap: all the protocol needs to know |
| `TurnWord.NearTurnsAreExact` | folly/MPMCQueue.h:729-739 | within 2^26 turns the truncated comparison is true exactly at one's own turn and the wrapped difference is the true distance |
| `TurnWord.NearWordsShowSameTurn` | folly/MPMCQueue.h:672-690 | a word that compares equal to one seen nearby shows the same turn |
| `TurnWord.EncodeShows` | folly/MPMCQueue.h:729-739 | encode is inverted by both decoders, deltas saturating at 63 |
| `TurnWord.TruncatedSturn` | folly/MPMCQueue.h:417-419 | truncating at every stage of turn * 2 + parity shifted by 6 loses nothing the word could show |
| `MPMCQueueProof.QueueRunInv` | folly/MPMCQueue.h:523-538 | the invariant of the queue holds in every state of every run on the layout the queue uses |
| `MPMCQueueProof.FifoDelivery` | folly/MPMCQueue.h:523-538 | the element delivered to pop ticket t is the one brought by push ticket t |
| `MPMCQueueProof.DeliveredOnce` | folly/MPMCQueue.h:761-822 | what a ticket brought or got in one state it has in all later ones: nothing is overwritten or delivered again |
| `MPMCQueueProof.MutualExclusion` | folly/MPMCQueue.h:604-690 | no two threads are inside the same slot's turn |
| `MPMCQueueProof.ElementInOnePlace` | folly/MPMCQueue.h:761-822 | every pushed element is in exactly one place: its pusher's hands, its slot, or delivered |
| `MPMCQueueProof.TurnsStayClose` | folly/MPMCQueue.h:411-419 | every unfinished turn is within twice the number of threads of its slot's current turn |
| `MPMCQueueProof.NextTicketStaysClose` | folly/MPMCQueue.h:424-521 | the same of the next ticket to be issued, so checks on it are unambiguous |
| `MPMCQueueProof.CheckIsExact` | folly/MPMCQueue.h:589-593 | isTurn on the next ticket answers about the true turn |
| `MPMCQueueProof.LoadStep` | folly/MPMCQueue.h:604-628 | waitForTurn's load lets a thread in exactly when it is its turn |
| `MPMCQueueProof.NoLostWakeup` | folly/MPMCQueue.h:604-690 | a sleeper has a wake in flight on its channel, or is recorded at least as far ahead as its distance to the next turn of its channel, saturation included |
| `MPMCQueueProof.RestsOnlyWhenEmptyOrFull` | folly/MPMCQueue.h:604-690 | when nobody can move, a sleeping pop waits for a push that has not begun and a sleeping push for a pop that has not begun |
| `MPMCQueueProof.RunningThreadCanStep` | folly/MPMCQueue.h:424-538 | a thread inside a call and not asleep always has a step |
| `MPMCQueueProof.ReadyNeverBlocks` | folly/MPMCQueue.h:424-452 | a ticket from a tryObtainReady call finds its turn come at the first load |
| `MPMCQueueProof.FalseReadyHadWitness` | folly/MPMCQueue.h:424-493 | a false result witnesses a state in which that ticket was next and would have blocked, inside the call: the thread has not moved since |
| `MPMCQueueProof.ReadyFailsOnlyBlocked` | folly/MPMCQueue.h:424-493 | whenever a thread inside tryObtainReady, for either role, is idle in the next state there was a state inside the call in which the next ticket would have blocked |
| `MPMCQueueProof.ReadyGetsItsTurn` | folly/MPMCQueue.h:424-493 | whenever it holds a ticket in the next state, that ticket has its turn |
| `MPMCQueueProof.PromiseIsKept` | folly/MPMCQueue.h:454-521 | a promised ticket's counterpart has been issued |
| `MPMCQueueProof.PromiseFailsWhenFullOrEmpty` | folly/MPMCQueue.h:454-521 | the promised forms fail only in a state in which the queue is full, or empty |
| `MPMCQueueProof.PromisedFailsOnlyFullOrEmpty` | folly/MPMCQueue.h:454-521 | whenever a thread inside tryObtainPromised is idle in the next state the queue is full, or empty |
| `MPMCQueueProof.PromisedGetsCounterpart` | folly/MPMCQueue.h:454-521 | whenever it holds a ticket in the next state, the counterpart of that ticket has been issued |
| `MPMCQueueProof.SizeIsLinearizable` | folly/MPMCQueue.h:168-192 | size() is pushes minus pops of one state since which the thread was inside the call |
| `MPMCQueueProof.SizeReportsOneState` | folly/MPMCQueue.h:168-192 | whenever a thread inside size() is idle in the next state it had two counters of one state of the call |
| `MPMCQueueProof.DoneMeansMoved` | folly/MPMCQueue.h:523-538 | a thread that is done with its ticket has moved the element: a pop has what its push brought, what a push brought is in its slot or delivered |
| `LifoSemHead.PackInjective` | folly/LifoSem.h:195-251 | the 64-bit word determines kind, data, shutdown bit and truncated sequence number |
| `LifoSemHead.PackFlags` | folly/LifoSem.h:224-245 | the word's accessors read back what was packed |
| `LifoSemHead.PopPacks` | folly/LifoSem.h:253-266 | withPop on the word is a pop of the head, sequence wrap included |
| `LifoSemHead.PushPacks` | folly/LifoSem.h:268-273 | withPush on the word is a push |
| `LifoSemHead.IncrPacks` | folly/LifoSem.h:277-286 | withValueIncr on the word adds and saturates |
| `LifoSemHead.DecrPacks` | folly/LifoSem.h:288-292 | withValueDecr on the word subtracts |
| `LifoSemHead.ShutdownPacks` | folly/LifoSem.h:295-297 | withShutdown on the word sets only the shutdown bit |
| `LifoSemProof.RunInv` | folly/LifoSem.h:323-587 | the invariant of the semaphore holds in every state of every run |
| `LifoSemProof.UnitsConserved` | folly/LifoSem.h:526-587 | initial plus posted units are in the value, taken, handed to popped waiters, or lost to saturation |
| `LifoSemProof.WaitListIsSound` | folly/LifoSem.h:526-587 | the wait list never coexists with a positive value, is acyclic, and holds exactly the nodes of waiters that nobody has popped |
| `LifoSemProof.WokenExactlyOnce` | folly/LifoSem.h:358-382 | a returning waiter was popped one way: with a unit and no notice, or by shutdown with a notice and no unit; nobody will post it again |
| `LifoSemProof.NoPushAfterShutdown` | folly/LifoSem.h:555-587 | once the shutdown bit is set it stays and the wait list only loses its top |
| `LifoSemProof.EmptyAfterShutdown` | folly/LifoSem.h:358-382 | once any shutdown() has returned the wait list is empty for good |
| `LifoSemProof.RestsOnlyWithoutUnits` | folly/Baton.h:104-178 | when nobody can move, every sleeper is still in the wait list, the value is zero and no unit or notice is on its way |
| `LifoSemProof.RefinesSemaphore` | folly/LifoSem.h:323-449 | every step is one indivisible step of an abstract semaphore, or invisible to it |
| `LifoSemProof.LastComeFirstServed` | folly/LifoSem.h:526-587 | in every run, as long as a waiter waits, all who waited before it still wait behind it in the same order: nobody is woken, by post or shutdown, before one who came later |
| `LifoSemProof.PostPostsItsUnits` | folly/LifoSem.h:339-353 | between its call and its return post(n) posts n units, and at every state in between n less what it still owes |
| `LifoSemProof.TryWaitReturnsTaken` | folly/LifoSem.h:397-414 | tryWait(n) has taken exactly what it returns, and returns less than n only in a state whose value is zero |
| `LifoSemProof.WaitTakesOneOrIsRefused` | folly/LifoSem.h:418-449 | a wait() that is over, by returning or throwing, took exactly one unit by its own steps, or none, and then the semaphore is shut down and the value is zero or shutdown() expelled this waiter |
| `LifoSemProof.ShutdownReturnsEmpty` | folly/LifoSem.h:358-382 | once a thread inside shutdown() is idle again the shutdown bit is set and the wait list empty, for good |
| `LifoSemProof.RunningThreadCanStep` | folly/LifoSem.h:323-449 | a thread inside a call and not asleep always has a step, unless it needs a wait node and all are owned |
| `IndexedMemPoolProof.RunInv` | folly/IndexedMemPool.h:310-398 | the invariant of the pool holds in every state of every run |
| `IndexedMemPoolProof.OwnershipIsPartition` | folly/IndexedMemPool.h:310-398 | every constructed index is the client's or in exactly one list or hand, once; unconstructed ones are nowhere |
| `IndexedMemPoolProof.LocalListIsSound` | folly/IndexedMemPool.h:322-345 | following localNext from a local head visits its list and ends; the size field is its length and at most the limit |
| `IndexedMemPoolProof.GlobalListIsSound` | folly/IndexedMemPool.h:310-356 | globalNext links the heads of the global lists, each of which has LocalListLimit + 1 nodes |
| `IndexedMemPoolProof.IsAllocatedIsExact` | folly/IndexedMemPool.h:195-198 | isAllocated is true of every index the client owns and false of every index on a list |
| `IndexedMemPoolProof.NoAssertionFails` | folly/IndexedMemPool.h:212-308 | slot accesses are in range, also through stale heads, and no size field over- or underflows |
| `IndexedMemPoolProof.RefinesSetAllocator` | folly/IndexedMemPool.h:146-165 | every step grants an index nobody owns, takes back an owned one, or is invisible |
| `IndexedMemPoolProof.AllocFailsOnlyAtCapacity` | folly/IndexedMemPool.h:139-152 | an undisturbed allocIndex returns an index, or finds capacity() indices allocated or in the hands of threads stopped inside their calls |
| `IndexedMemPoolProof.AllocReports` | folly/IndexedMemPool.h:139-152 | whatever others do in between, an allocIndex that is over has made one more index the caller's, or has seen in turn its local list empty, the global list empty and every slot constructed |
| `IndexedMemPoolProof.IdleHoldsNothing` | folly/IndexedMemPool.h:156-165 | a thread outside all calls has no index in hand: none is dropped on the way in or out |
| `IndexedMemPoolProof.SequentialAllocFailsOnlyAtCapacity` | folly/IndexedMemPool.h:139-152 | with calls that do not overlap, 0 is returned only when capacity() indices are allocated, however free ones are spread |
| `IndexedMemPoolProof.CapacityIsKept` | folly/IndexedMemPool.h:97-105 | a pool reports the capacity it was built for if and only if the boost for the local lists fits an index, and never more |
| `IndexedMemPoolProof.SizeStaysBounded` | folly/IndexedMemPool.h:374-386 | size_ stays below actualCapacity_ plus the number of threads, so it cannot wrap while their sum is at most 2^32 |
| `IndexedMemPoolProof.SizeReachesBound` | folly/IndexedMemPool.h:374-386 | for every capacity and number of threads some run gets size_ to one less than their sum |
| `IndexedMemPoolProof.RunningThreadCanStep` | folly/IndexedMemPool.h:310-398 | a thread inside a call always has a step |
| `AtomicHashMapProof.NextPowTwoIsLeast` | folly/AtomicHashArray-inl.h:34-34 | the anchor mask is one less than the least power of two not below the capacity |
| `AtomicHashMapProof.AnchorIsResidue` | folly/AtomicHashArray.h:283-287 | a hash below the capacity, and any hash when the capacity is a power of two, anchors at its residue |
| `AtomicHashMapProof.ProbesVisitEachCellOnce` | folly/AtomicHashArray.h:289-294 | from its anchor on a search comes to each cell of an array exactly once, in order around the array |
| `AtomicHashMapProof.RunInv` | folly/AtomicHashArray-inl.h:89-188 | the invariant of the map holds in every state of every run |
| `AtomicHashMapProof.AtMostOneCell` | folly/AtomicHashMap-inl.h:79-149 | a key is live in at most one cell of all sub-maps |
| `AtomicHashMapProof.InsertedIsLive` | folly/AtomicHashArray-inl.h:127-157 | publishing a key makes it live in the locked cell, and it was live nowhere before |
| `AtomicHashMapProof.NoInsertAfterClosing` | folly/AtomicHashArray-inl.h:102-126 | once an array was full with nothing pending its empty cells stay empty for good |
| `AtomicHashMapProof.TurnedAwayForever` | folly/AtomicHashArray-inl.h:102-188 | an array that turned an insert of a key away, closed or with every cell taken, never holds that key again |
| `AtomicHashMapProof.FullIsForever` | folly/AtomicHashArray-inl.h:102-188 | an array whose probe path has no room for a key never gets room |
| `AtomicHashMapProof.InsertTakesEffect` | folly/AtomicHashArray-inl.h:127-188 | an insert that returns, inserted or not, had its key in the cell it returns at a state inside the call |
| `AtomicHashMapProof.InsertReports` | folly/AtomicHashArray-inl.h:89-188 | an insert that reports true put the key, which was in no cell, into the cell it reports by a step of its own; one that reports false met the key there |
| `AtomicHashMapProof.InsertThrowsOnlyWhenFull` | folly/AtomicHashMap-inl.h:79-149 | an insert throws only when the map has as many arrays as it may have and each has turned the key away |
| `AtomicHashMapProof.UnerasedStaysLive` | folly/AtomicHashArray-inl.h:204-243 | a key stays in its cell until the compare-and-swap of an erase of that key succeeds |
| `AtomicHashMapProof.FindAfterInsert` | folly/AtomicHashMap-inl.h:179-196 | a find that starts after an insert has returned, no erase of the key having succeeded since the insert took effect, returns the cell of the insert |
| `AtomicHashMapProof.FindSucceeds` | folly/AtomicHashMap-inl.h:179-196 | a find during which the key stays in a cell returns that cell |
| `AtomicHashMapProof.FindReportsLive` | folly/AtomicHashMap-inl.h:151-196 | a find that reports a cell saw its key live in that cell at a state inside the call |
| `AtomicHashMapProof.FindReportsAbsent` | folly/AtomicHashMap-inl.h:151-196 | a find that reports nothing had a state inside the call in which the key was in no cell |
| `AtomicHashMapProof.EraseSucceeds` | folly/AtomicHashArray-inl.h:204-243 | an erase of a live key that nobody else erases first erases it; it never gives up at a locked cell |
| `AtomicHashMapProof.EraseReportsErased` | folly/AtomicHashArray-inl.h:204-243 | an erase that reports success took the key out of the map by a step of its own: it was in a cell before and in none after |
| `AtomicHashMapProof.EraseReportsAbsent` | folly/AtomicHashArray-inl.h:204-243 | an erase that reports failure had a state inside the call in which the key was in no cell |
| `AtomicHashMapProof.AssertionsHold` | folly/AtomicHashArray-inl.h:89-188 | probes stay inside the array, the pending count never goes below zero, a cell found taken is never empty again |
| `AtomicHashMapProof.RunningThreadCanStep` | folly/AtomicHashArray-inl.h:89-243 | a thread inside a call always has a step |
| `SkipListProof.RunInv` | folly/ConcurrentSkipList.h:288-378 | the invariant of the skip list holds in every state of every run of adds, removes and head growth |
| `SkipListProof.LayersAreSorted` | folly/ConcurrentSkipList.h:206-230 | in every state each layer of the head is linked from the head to its end and strictly sorted |
| `SkipListProof.LayersAreNested` | folly/ConcurrentSkipList.h:288-378 | in every state each layer is contained in the one below |
| `SkipListProof.LinkedNodesAreFound` | folly/ConcurrentSkipList.h:288-335 | a fully linked node that is not marked is in all its layers, and all pointers, also of removed nodes, lead to higher keys |
| `SkipListProof.LocksDescend` | folly/ConcurrentSkipList.h:254-279 | a lock waited for is of a lower key than every lock held |
| `SkipListProof.NoDeadlock` | folly/ConcurrentSkipList.h:254-279 | no cycle of threads each waiting for a lock that the next one holds, head growth included |
| `SkipListProof.RunningThreadCanStep` | folly/ConcurrentSkipList.h:288-378 | a thread inside a call has a step that moves it on, unless the lock it is about to take is held or it waits for somebody else's node to be linked |
| `SkipListProof.SomeCallCanGoOn` | folly/ConcurrentSkipList.h:254-279 | while some call has not returned, some call has a step that moves it on: spinning on a lock or on a node not fully linked does not count |
| `SkipListProof.RunLinks` | folly/ConcurrentSkipList.h:322-329 | a node that is not fully linked is being linked by the thread that made it |
| `SkipListSet.StepsOnSet` | folly/ConcurrentSkipList.h:288-378 | every step adds the key of an add that was not there, removes the key of a remove that was, or leaves the set of linked, unmarked keys alone |
| `SkipListSet.AddTakesEffect` | folly/ConcurrentSkipList.h:322-329 | an add inserts its key when it sets the fully-linked flag, and the key was absent |
| `SkipListSet.RemoveTakesEffect` | folly/ConcurrentSkipList.h:354-362 | a remove takes its key out when it marks the node, and the key was present |
| `SkipListSet.AddReportsPresent` | folly/ConcurrentSkipList.h:295-307 | when add returns without inserting the key was in the set at an instant inside the call |
| `SkipListSet.AddReports` | folly/ConcurrentSkipList.h:288-335 | an add that is over, at whatever step it ended, added its key by just one of its steps, or left the set alone and had an instant at which the key was in it |
| `SkipListSet.RemoveReportsAbsent` | folly/ConcurrentSkipList.h:346-362 | when remove returns false, whichever test it fails, the key was not in the set at an instant inside the call |
| `SkipListSet.RemoveReports` | folly/ConcurrentSkipList.h:340-378 | a remove that is over removed its key by just one of its steps, or left the set alone and had an instant at which the key was not in it |
| `SkipListSet.LookBack` | folly/ConcurrentSkipList.h:206-230 | a pointer loaded from a node that was linked at some state is the pointer of a linked node at some state since, however long it has been removed |
| `SkipListSet.FindReports` | folly/ConcurrentSkipList.h:418-445 | a find that returns nothing had an instant at which the key was not in the set; a node it returns was, at an instant inside the call, in the set or being linked by an unfinished add |
| `SkipListSet.FindSucceeds` | folly/ConcurrentSkipList.h:418-445 | a find that starts with the key in the set, the key not being removed meanwhile, returns a node with the key |
| `SkipListSet.FoundButNotRemoved` | folly/ConcurrentSkipList.h:245-251 | a run in which a thread finds a key, fails to remove it though nobody removes, and finds it again |
| `ChessModel.AppliedAt` | chess/move.cc:17-39 | what apply leaves on every square, for all five kinds of move |
| `ChessModel.PutsDown` | chess/move.cc:17-39 | what stands on the target square: a queen or a knight of the mover's colour for the two promotions, the mover otherwise |
| `ChessModel.MovesBesides` | chess/move.cc:27-34 | a capture en passant empties the square behind the target, castling takes the rook to the other side of the king and leaves its corner empty |
| `ChessModel.UndoRestores` | chess/move.cc:41-90 | undo after apply restores every square and both tracked kings |
| `ChessModel.AppliedTracked` | chess/board.h:131-137 | kings stay tracked through every well-formed move |
| `ChessModel.UndoAllRestores` | chess/move.cc:17-90 | a line of moves of any kinds undone in reverse order restores the board |
| `ChessModel.ReachesBack` | chess/piece.cc:114-125 | a clear line is clear both ways |
| `ChessBoard.Board.Set` | chess/board.h:42-45 | writes one square and tracks a king |
| `ChessBoard.Board.IsChecked` | chess/board.cc:107-122 | the scan is true if and only if some piece of the other side attacks the tracked king |
| `ChessBoard.Board.MakeMove` | chess/board.cc:145-150 | the copy is the board with the move applied, the original is unchanged |
| `ChessBoard.Apply` | chess/move.cc:17-39 | the board in place becomes the applied one |
| `ChessBoard.Undo` | chess/move.cc:41-49 | the board in place becomes the undone one |
| `ChessBoard.CheckCanAttackLine` | chess/piece.cc:114-125 | true if and only if the target is some number of steps away over empty squares |
| `ChessBoard.QueenCanAttack` | chess/queen.cc:27-47 | the case split finds exactly the squares reachable in one of the eight directions |
| `ChessBoard.RookCanAttack` | chess/rook.cc:23-35 | the same for ranks and files |
| `ChessBoard.BishopCanAttack` | chess/bishop.cc:22-35 | the same for diagonals |
| `ChessBoard.KnightArea` | chess/knight.cc:28-34 | area two means a knight's jump |
| `ChessBoard.CanAttack` | chess/piece.h:113-115 | canAttack of every piece is the attack relation |
| `ChessMoves.AddMovesFromLine` | chess/piece.cc:127-139 | adds exactly the moves to squares reached along the line and not held by the own side |
| `ChessMoves.GetMoves` | chess/queen.cc:13-25 | for queen, rook, bishop, knight and king, a move is generated if and only if the target is attacked and not held by the own side, castling allowed or not |
| `ChessMoves.JumpMoves` | chess/knight.cc:13-26 | exactly the listed jumps that stay on the board and do not take the own side |
| `ChessMoves.CanCastle` | chess/king.cc:42-60 | decides what canCastle asks for: the square of origPos, the rook clause and the empty squares, the king's own among them |
| `ChessMoves.NeverCastles` | chess/king.cc:42-60 | that can hold of no piece on the board |
| `ChessMoves.AddCastling` | chess/king.cc:29-38 | adds exactly the castling moves canCastle admits |
| `ChessMoves.PawnMoves` | chess/wpawn.cc:22-57 | both pawn generators make exactly the moves one colour-neutral rule allows, promotions and en passant included, whatever reads beside the board yield |
| `ChessMoves.WhitePawnRules` | chess/wpawn.cc:22-57 | that rule for White, square by square and row by row |
| `ChessMoves.BlackPawnRules` | chess/bpawn.cc:20-57 | that rule for Black |
| `ChessMoves.JumpRules` | chess/knight.cc:13-26 | the squares pawns, knights and kings attack are those of the generators' tables |
| `ChessLegality.CheckIsExposed` | chess/one_round.cc:119-139 | a move of another piece that uncovers an attack on the king uncovers it along the ray through a square it vacates, that of a pawn taken en passant included |
| `ChessLegality.RayTestExact` | chess/one_round.cc:119-139 | out of check, attackers other than a castled rook show on the rays through the squares vacated, and whatever shows there attacks the king |
| `ChessLegality.ScanRay` | chess/one_round.cc:128-138 | the loop decides whether a slider looks at the king along the ray |
| `ChessLegality.ListsStayCurrent` | chess/one_round.cc:56-66 | lists made before a side's move miss at most the piece moved, and a castled rook |
| `ChessLegality.SeenIsEverything` | chess/one_round.cc:56-66 | with current lists, the listed pieces and the last one moved attack the king if and only if anything does but a castled rook that is not listed |
| `ChessLegality.OneRound.constructor` | chess/one_round.cc:141-160 | the lists hold exactly the pieces of each side |
| `ChessLegality.OneRound.CheckChecked` | chess/one_round.cc:56-66 | true if and only if a listed piece that is still in place attacks the king |
| `ChessLegality.OneRound.IsChecked` | chess/one_round.cc:79-81 | agrees with the full scan |
| `ChessLegality.OneRound.IsChecking` | chess/one_round.cc:68-77 | true if and only if something else than a rook that just castled attacks the king; right if and only if that rook is not the only attacker |
| `ChessLegality.OneRound.CanMove` | chess/one_round.cc:83-139 | leaves the scratch board unchanged and computes Answer; with current lists and the flag of isChecking it is right about the king if and only if neither the castled rook nor a pawn taken en passant is misjudged |
| `ChessLegality.AnswerIsRight` | chess/one_round.cc:83-139 | the same equivalence for every board, last move, move and flag: the castled rook is misjudged when nothing else attacks the king and it attacks the target and not the king, or only the king and is not seen; the pawn when it alone stood before a slider |
| `ChessLegality.EnPassantIsDecided` | chess/one_round.cc:119-139 | after a double step from a position in which the mover was not in check, a capture en passant is never misjudged |
| `ChessLegality.PassedPawnIsMissed` | chess/one_round.cc:119-139 | a board without such a past on which one is |
| `ChessLegality.AttackMoveIsWellFormed` | chess/move.cc:12-15 | generated moves of pieces are what apply, undo and canMove expect |
| `ChessLegality.PawnMoveIsWellFormed` | chess/wpawn.cc:22-57 | so are generated pawn moves after a recorded double step that happened |
| `ChessLegality.RepliesAreDecided` | chess/one_round.cc:383-403 | after any move of the first side, lists made before it and the flag of isChecking meet canMove's terms for every reply, and unless the move was castling canMove is right about every reply, en passant included |
| `ChessLegality.CastledRookForbidsLegalMove` | chess/one_round.cc:103-114 | a legal knight move that the castled-rook clause refuses |
| `ChessLegality.CastledRookCheckIsMissed` | chess/one_round.cc:68-114 | a check by castling that isChecking does not see, and an illegal move that canMove then accepts with either flag |
| `ChessSearch.MateMaxMonotone` | chess/one_round.cc:305-414 | a mate within n moves is one within more |
| `ChessSearch.UpdateAfterMiss` | chess/solution_cache.cc:34-54 | after a missed lookup an update moves only the intended bound of its own entry |
| `ChessSearch.FailureKeepsUpper` | chess/solution_cache.cc:34-54 | a reported failure leaves the mate bound alone if and only if it is not stored, nothing was stored, it raises the lower bound, or the mate bound was no higher |
| `ChessSearch.UnknownReadAsMate` | chess/solution_cache.cc:17-32 | an entry without a known mate is read as a mate if and only if INT_MAX levels or more are asked for, with such a call |
| `ChessSearch.StrayUpdate` | chess/solution_cache.cc:40-46 | an update without that miss can record a mate nobody found |
| `ChessSearch.Search.LookupMin` | chess/solution_cache.cc:17-32 | an answer from the cache is right, and a cached mate has a stored solution |
| `ChessSearch.Search.LookupMax` | chess/solution_cache.cc:17-32 | a cached failure and a cached mate are right |
| `ChessSearch.Search.UpdateMin` | chess/solution_cache.cc:34-54 | keeps "no mate at the lower bound, mate at the upper bound" for the other side's cache |
| `ChessSearch.Search.UpdateMax` | chess/solution_cache.cc:34-54 | the same for the first side's cache |
| `ChessSearch.Search.StoreSolution` | chess/one_round.cc:270-293 | the whole forest and map afterwards: the replies become new children of the node of the key, each with its own subtree, and nothing else changes |
| `ChessSearch.Search.StoreWhole` | chess/one_round.cc:341-374 | storing a mate just found keeps every stored solution whole and adds one |
| `ChessSearch.StoredSolutionMates` | chess/one_round.cc:270-293 | in a forest of whole solutions, playing the stored moves against any replies ends in mate |
| `ChessSearch.Search.AddSolutionNode` | chess/solution_cache.h:48-51 | appends a node; a key stored before keeps its node, and so do all other keys |
| `ChessSearch.Search.Expand` | chess/one_round.cc:405-414 | safe whatever the signatures; on any set of positions closed under moves on which they suit, and whatever right contents the caches have: CHECKMATE means a forced mate within n moves, with all replies and their stored solutions, a forced mate is found unless a move was discarded as circular; moves discarded are, each with its position, parent and parent's move, circular ones met in the lines of this search; the caches stay right; a root without moves scores as mated or stalemated, any other as CHECKMATE or NONE |
| `ChessSearch.NothingDiscarded` | chess/one_round.cc:295-303 | where no move of the lines within n levels takes one back nothing is discarded |
| `ChessSearch.Search.ExpandMaxStep` | chess/one_round.cc:305-338 | the same for the loop over the first side's moves |
| `ChessSearch.Search.NextMaxMove` | chess/one_round.cc:312-337 | the same for one turn of that loop, which discards circular moves |
| `ChessSearch.Search.TryMaxMove` | chess/one_round.cc:318-336 | the same for one move: cache, or expansion and update |
| `ChessSearch.Search.ExpandMinStep` | chess/one_round.cc:383-403 | the same for the replies; no reply scores as mate if the side is in check and as stalemate otherwise |
| `ChessSearch.Search.HandleMinStep` | chess/one_round.cc:341-374 | the same for one reply; the solution of a cached mate is always found |
| `ChessGame.LegalMovesExact` | chess/one_round.cc:231-262 | the moves of the game are the generated moves that do not leave the own king attacked |
| `ChessGame.AcceptedMovesAreLegal` | chess/one_round.cc:231-262 | with fresh lists and the flag of isChecked, canMove accepts exactly the legal ones among the generated moves of the first side, after any generated reply or none |
| `ChessGame.AcceptedRepliesAreLegal` | chess/one_round.cc:376-403 | after a generated move canMove, with the lists and the flag the code has, accepts exactly the legal ones among the generated replies |
| `ChessGame.ChessIsChess` | chess/one_round.cc:231-262 | there is a game whose moves are the legal moves |
| `ChessGame.MateIsForcedMate` | chess/one_round.cc:305-414 | the mate values of every such game, in whatever order it lists the moves, are the forced mates of chess |
| `ChessGame.CircularTakesBack` | chess/one_round.cc:295-303 | after two legal moves, a legal move that isCircularMove discards moves the man of the move before back, and restores what stood there if and only if that move was no promotion |
| `ChessGame.PromotedManIsCircular` | chess/one_round.cc:295-303 | a pawn is promoted, the other king moves, and the queen's way back is discarded although a pawn stood there |
| `ChessCalm.CalmStays` | chess/wpawn.cc:48-55 | a legal move keeps a position calm: by where the pawns stand, neither side can capture en passant, now or later |
| `ChessCalm.CalmSuits` | chess/board.h:115-123 | on calm positions equal squares mean equal mate values |
| `ChessCalm.Solve` | chess/dfs.cc:34-38 | expand on a calm position with signatures of the squares and isCircularMove as the code has it: CHECKMATE is a forced mate of chess begun by a legal move; a forced mate is found unless a move was discarded, and always when no line of the search takes a move back; the caches stay right for the next calm root |
| `ChessCalm.FullSignatureIsOk` | chess/board.h:115-123 | signatures that tell apart boards and en passant rights tell apart mate values, on all positions |
| `ChessStudy.SquaresAreNotEnough` | chess/board.h:115-123 | signatures of the squares do not, wherever a pawn may have come to b4 by one step or by two |
| `ChessStudy.SharedCacheMissesMate` | chess/one_round.cc:305-414 | two searches with one cache: the first answers right that there is no mate in two, the second overlooks a mate in one on a calm root |
| `GroupVarintStream.StreamRoundTrip` | folly/GroupVarint.h:430-592 | for every codec that reads back what it stores, decoding the stream of any list gives the list, or its first max values |
| `GroupVarintStream.StreamAppend` | folly/GroupVarint.h:451-458 | whole groups in front do not disturb what follows |
| `GroupVarintStream.CountDecodes` | folly/GroupVarint.h:104-116 | all values of a group are counted, and no padding of a short last one |
| `GroupVarintBytes.KeyIsLength` | folly/GroupVarint.h:244-247 | the leading-zero formula is the byte count less one, for both widths |
| `GroupVarintBytes.LengthIsLeast` | folly/GroupVarint.h:244-247 | the byte count is the least number of bytes, at least one, that holds the value |
| `GroupVarintBytes.LEByte` | folly/GroupVarint.h:132-147 | byte k of a stored value is its k-th base-256 digit |
| `GroupVarintBytes.GroupOfFour` | folly/GroupVarint.h:132-147 | the bytes of a 32-bit group: one byte of lengths less one, two bits each, the first value's lowest, and then the four values in order |
| `GroupVarintBytes.GroupOfFive` | folly/GroupVarint.h:337-360 | the bytes of a 64-bit group: two bytes, low first, of lengths less one, three bits each, and then the five values in order |
| `GroupVarintBytes.GroupExample` | folly/GroupVarint.h:132-147 | 17, 258, 0 and 65536 become 84 11 02 01 00 00 00 01 |
| `GroupVarintBytes.UnpackPack` | folly/GroupVarint.h:248-251 | the packed lengths of a header read back |
| `GroupVarintBytes.CodecIsOk` | folly/GroupVarint.h:132-183 | both formats read back what they store |
| `GroupVarintBytes.GroupVarintRoundTrip` | folly/GroupVarint.h:337-395 | the stream round trip for the 32- and 64-bit formats |
| `GroupVarint.StoreValue` | folly/GroupVarint.h:132-147 | a full-width store leaves the value's own bytes in place |
| `GroupVarint.Encode` | folly/GroupVarint.h:132-147 | overlapping stores leave exactly the group, within kMaxSize bytes |
| `GroupVarint.PartialSize` | folly/GroupVarint.h:91-98 | the bytes of the first count values |
| `GroupVarint.EncodeShort` | folly/GroupVarint.h:465-477 | padding, encoding and clipping yields the short group |
| `GroupVarint.Encoder.Add` | folly/GroupVarint.h:451-458 | the values fed grow by one; the output is the stream of all whole groups |
| `GroupVarint.Encoder.Finish` | folly/GroupVarint.h:465-477 | the output is the stream of everything fed |
| `GroupVarint.LoadValue` | folly/GroupVarint.h:163-181 | a full-width load and mask reads the value's own bytes |
| `GroupVarint.DecodeGroup` | folly/GroupVarint.h:163-181 | reads header and values and finds the end of the group |
| `GroupVarint.PartialCount` | folly/GroupVarint.h:104-116 | how many values end within the bytes |
| `GroupVarint.Decoder.Next` | folly/GroupVarint.h:541-592 | returns the next value of what the bytes decode to, or none at its end |
| `GroupVarint.Decoder.CopyIfShort` | folly/GroupVarint.h:548-560 | going on in the copy changes nothing, and a whole group is readable |
| `GroupVarint.Decoder.Consume` | folly/GroupVarint.h:561-588 | full, short and limited groups each take what they should off the stream |
| `GroupVarint.EncodeThenDecode` | folly/GroupVarint.h:430-592 | feeding, finishing and reading back any list gives the list, or its first maxCount values |
| `Conv.NumDigitsBounds` | folly/Conv.h:189-193 | the digit count is the one length without leading zeros |
| `Conv.Digits10` | folly/Conv.h:195-206 | counts the decimal digits |
| `Conv.UInt64ToBuffer` | folly/Conv.h:221-238 | writes exactly the digits of v, which denote v, and nothing else |
| `Conv.StrNCmpLe` | folly/Conv.h:1066-1068 | on digit strings of one length, string order is numeric order |
| `Conv.DigitsTo` | folly/Conv.h:1048-1113 | accepts a nonempty digit string if and only if its value fits the type, any leading zeros allowed, and returns the value |
| `Conv.NoOverflow` | folly/Conv.h:1074-1085 | appending digits of a number that fits never wraps in the type's arithmetic |
| `Conv.Accumulate` | folly/Conv.h:1074-1112 | the four-digit loop yields the value |
| `Conv.MaxStrings` | folly/Conv.cpp:30-32 | the table's strings denote the largest 8-, 16- and 32-bit values |
| `Conv.MaxString64` | folly/Conv.cpp:36-44 | and the largest 64-bit value |
| `Conv.PrintThenParse` | folly/Conv.h:221-238 | parsing the printed form of any uint64 gives it back |
| `FBStringFind.SkipIsSafe` | folly/FBString.h:1802-1812 | where the last character matched and the needle did not, no match starts before the skip |
| `FBStringFind.ComputeSkip` | folly/FBString.h:1804-1811 | the distance back to the previous occurrence of the needle's last character |
| `FBStringFind.FirstMismatch` | folly/FBString.h:1798-1818 | the pedestrian comparison decides a match |
| `FBStringFind.Find` | folly/FBString.h:1769-1822 | the result is the least match at or after pos, or npos if there is none, if and only if the needle is nonempty, pos is within the string or pos is npos; an empty needle is found at pos |

## Left out

- `ConcurrentSkipList`: reclaiming removed nodes and former heads (`NodeRecycler`), `size_`, `first`, `last`, `lower_bound`, the unused `findNodeRightDown`, iterators and `Skipper`.
- Memory orders weaker than sequential consistency, spin-cutoff adaptation, cache-line padding, `Baton::timed_wait` and SIMD decoding.
- Wrap-around of sequence numbers, tags and tickets between a load and its compare-and-swap; wait-node exhaustion in `LifoSem::allocateNode`.
- Value constructors that throw inside `AtomicHashArray::insertInternal`, iterators, `clear`, and the arithmetic that sizes a new sub-map.
- `Board::evaluate`, `Board::expand`, `makeMove` by positions, move ordering by heuristics, board files, printing.
- ChessCalm.Solve: which mates are overlooked when a move was discarded as circular; collisions of the checksums in `Board::hash`; roots that are not calm, for which only the failure above is shown.
- GroupVarint.Decoder.Next: `rest()` is not modelled.
