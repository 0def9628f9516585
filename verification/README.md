# Verified model of the game server's concurrent and transactional core

The repository is a game server: lock-free containers and a byte ring buffer under its network
library, a packet codec with generated stubs and proxies, and a battle server that numbers
matches and stores battle results in MySQL. This project models the parts whose correctness is
hard to see from the code and proves what they are for.

| files | component | main results |
|---|---|---|
| `LockFreeQueue`, `QueueInvariant`, `QueueTheorems`, `QueueTightness`, `QueueTags`, `QueueWrap`, `QueueRuns`, `QueueCalls`, `Counting` | `LFQueue`, `MAXLFQueue` | FIFO over every run, what every call returns, the two CASes that cannot miss, tags never recur, exact size accounting, no deadlock, the exact bound of the bounded queue, the exact growth of tags, and what remains with tags of 16 bits |
| `TaggedPointer`, `Bits` | the 48+16-bit tagged pointers | what the tag arithmetic publishes after any number of failed attempts, and exactly when it agrees with natural-number tags |
| `LockFreeStack`, `StackTheorems`, `StackWrap`, `StackRuns`, `StackCalls` | `LFStack` | LIFO over every run, what every call returns, poppers never meet a null top, exact size accounting, and what remains with keys of 16 bits |
| `BattleTables`, `BattleDB` | transactional save with retry | all or nothing, at most once, tables always consistent, for every fault schedule; which rows a result writes, and which calls an attempt makes |
| `RingBuffer`, `RingSpsc`, `SpscCalls`, `Bytes` | `RingBuffer` | refinement of a bounded FIFO at every wrap position, zero-copy equals copy, one producer and one consumer without a lock, what each of their calls transfers, and exactly when a short read leaves the buffer or the caller's array |
| `MatchIDGenerator` | match identifiers | strictly increasing signed identifiers under any clock trace, fields decode back, no collisions |
| `PacketCodec`, `FighterRpc`, `PacketRefs` | packets | codec round trip, the bytes of every message, stub inverts client encodings, injective server encodings, reference counts |
| `ConfigParser` | configuration lookup | the skip-ahead scan finds the first match, exactly when that is the whole word and when the scan stays in the block, printed integers are read back |
| `Wrappers` | | the type of optional values |

## How the concurrent containers are modelled

`LockFreeQueue` and `LockFreeStack` are state machines. Every thread has a program counter with
its live locals; one step is one shared read, one shared write or one Interlocked call. Threads
may be spawned at any time. The node pool is an environment that may hand out any node it owns,
so an address can be freed and reused between any two reads of another thread; nodes in the pool
may be rewritten at any moment, and node memory is never unmapped. History variables (`chain`,
`taken`, `items`, `issued`, `linker`, `slot`) record what happened; no step reads them to decide
anything. A run is any sequence of enabled steps, and the theorems are about all of them.

Assumptions, each visible in the model:

- The main results about the queue and the stack are about natural-number tags and keys; the code
  keeps 16 bits, and the machines have their width as a parameter (`bits`).
  `QueueWrap.WrappedIsNatural` and `StackWrap.WrappedIsNatural` show that a run with tags or keys of
  any width is a run with natural ones, step by step, as long as no won swap publishes a word that a
  thread still holds from a read of the same shared pointer; so `QueueWrap.FifoWrapped` and
  `StackWrap.LifoWrapped` hold of all such runs. It is not enough that no thread sleeps across many
  pushes: a stack key is drawn before the loop of Push, so it is old when the Push itself slept.
  - Words cannot come back before the counter starts over: `StackWrap.LifoOfFewPushes` (the first
    65535 pushes), `QueueWrap.FifoUntilLastTag` (until an Enqueue reads a tail whose tag is 65535).
  - Queue tags can grow faster than one by one, because failed attempts leave their bits in
    `countnode`: `QueueTags.TagBelow` shows that 16 bits are enough for the first 16 won tail swaps
    of a queue, `QueueTags.TagIsReached` that 16 racing threads do use them up in 16 won swaps.
    `TaggedPointer.AgreesWithModel` states for the real word arithmetic that one pass agrees with
    natural tags if and only if the tag read is not the last 16-bit value,
    `TaggedPointer.OfferedTag` that exactly then the offered tag exceeds the replaced one.
  - `StackRuns.ReusedKeyBreaks` and `QueueRuns.ReusedTagBreaks` are runs, for every width, in which a
    word does come back while it is held, and the containers return the wrong data.
- `_size` is an unbounded integer, and memory is sequentially consistent.
- A database session whose ROLLBACK fails is gone and its open work discarded
  (`rollbackDrops`; used by `Serve`, not by the result for one save, which also says what happens
  to a transaction that was left open). A COMMIT that fails with
  anything but a lost connection did not take effect (`commitTellsTruth`; used only where a clause
  names it).
- The battle tables have the unique keys that Servers/BattleSessionServer/README.md documents.
- Clock readings are below 2^41 milliseconds after the custom epoch (until 2095) and server numbers
  at most 1023. `MatchIDGenerator.SignExactly` shows the limit is exact.

Where the code does not do what one would expect, the project shows it failing and proves the exact
condition:

- `QueueTightness.BoundIsReached`: the bounded queue overshoots its maximum by threads - 1.
- `RingBuffer.RingBuffer.MoveRear`, `RingBuffer.RingBuffer.DirectDequeueSize`: clamping, and the empty buffer.
- `QueueRuns.ReusedTagBreaks`, `StackRuns.ReusedKeyBreaks`: a tag or key that comes back while a thread
  still holds it.
- `QueueRuns.EmptyAfterEnqueue`, `StackRuns.EmptyAfterPush`: an empty verdict after a completed call,
  because of an earlier call that has not given its reservation back; the exact condition is in the
  two lemmas `EmptyVerdict`.
- `RingSpsc.ShortReadExactly`, `RingSpsc.ShortReadBreaks`, `RingSpsc.ShortReadOverruns`: a concurrent
  Enqueue that publishes between two reads of rear in a short Dequeue. If it wraps, memcpy gets a
  negative length; if it brings more bytes than were asked for, they are copied beyond the caller's
  array.
- `PacketCodec.WidthsFitExactly`, `PacketCodec.GuardOverruns`: the size guard of the packet operators.
- `PacketRefs.LeakExactly`, `PacketRefs.AssignmentLeaks`: the packet assignment.
- `ConfigParser.ScanStaysExactly`: a closing brace that is part of a word.
- `ConfigParser.WholeWordExactly`, `ConfigParser.LongerWordWins`: a key inside a longer word is found
  first, because only the character after the key is checked.
- `ConfigParser.LineExactly`, `ConfigParser.ValueWins`: so is a value that is the key, although a line
  for the key follows.
- `ConfigParser.DigitsReadExactly`, `ConfigParser.LetterAccepted`: zeros of several digits, and lone letters.

Common/LockFree/README.md says Enqueue refuses when the size has reached `_maxSize`; in the code that
holds of the size it reads, not of the size when the node goes in. The code is followed.

## Model

| member | source | states |
|---|---|---|
| `QueueTheorems.Fifo` | Common/LockFree/LockFreeQueue(CAS).h:43-139 | in every run of any number of threads the k-th won head swap returns the data of the k-th won tail swap, and the data not yet taken are exactly the queue's content |
| `QueueTheorems.Conservation` | Common/LockFree/LockFreeQueue(CAS).h:43-139 | from any invariant state: old content followed by what goes in equals what comes out followed by the new content |
| `QueueTheorems.StepRefines` | Common/LockFree/LockFreeQueue(CAS).h:66-131 | each atomic step is one operation of a sequential queue or invisible; the tail CAS is where Enqueue takes effect, the head CAS where Dequeue does |
| `QueueInvariant.InitInv` | Common/LockFree/LockFreeQueue(CAS).h:22-28 | the constructed queue satisfies the invariant |
| `QueueInvariant.StepInv` | Common/LockFree/LockFreeQueue(CAS).h:43-139 | every step of every thread and of the pool keeps the invariant: one chain in tail-swap order, one owner per node, what each thread's stale reads still mean, and the size books |
| `QueueInvariant.WinTailStructure` | Common/LockFree/LockFreeQueue(CAS).h:56-66 | a won tail swap appends the node behind the old tail although the link is still missing, with a tag above every earlier one |
| `QueueInvariant.LinkFindsNull` | Common/LockFree/LockFreeQueue(CAS).h:68 | the link CAS after a won tail CAS finds a null successor, so it never fails |
| `QueueInvariant.WinHeadStructure` | Common/LockFree/LockFreeQueue(CAS).h:118-136 | a won head swap makes the successor the dummy and gives the old dummy to the winner alone, even if nodes were freed and reused since the reads |
| `QueueInvariant.BooksAccounts` | Common/LockFree/LockFreeQueue(CAS).h:70-97 | a step that books `_size`, the chain and the thread's class consistently keeps the size equation and the reservation bound |
| `QueueInvariant.CheckSizeAccounts` | Common/LockFree/MaxLockFreeQueue(CAS).h:48-52 | passing the size test keeps the bound on `_size` although other threads may have passed it too |
| `QueueTheorems.TailIsOpen` | Common/LockFree/LockFreeQueue(CAS).h:54-75 | the current tail has no successor; hence the link CAS succeeds, no node is linked twice, and the helping CAS of Dequeue never changes the tail |
| `QueueTheorems.HelpingIsVain` | Common/LockFree/LockFreeQueue(CAS).h:102-116 | a dequeuer goes on to the head exactly if the tail it read has no successor; otherwise its helping attempt changes nothing and it reads the tail again |
| `QueueTheorems.TagsOnlyGrow` | Common/LockFree/LockFreeQueue(CAS).h:57-66 | every change of tail or head installs a strictly larger tag although the tag is accumulated with OR over failed attempts |
| `QueueTheorems.NoRecurrence` | Common/LockFree/LockFreeQueue(CAS).h:57-66 | over any run a replaced tail or head value never comes back (no ABA) |
| `QueueTheorems.NoWildAccess` | Common/LockFree/LockFreeQueue(CAS).h:63-136 | no thread dereferences null or an address outside node memory, however stale its pointers |
| `QueueTheorems.SizeAccounts` | Common/LockFree/LockFreeQueue(CAS).h:70-97 | queued nodes = `_size` + reserved dequeuers + uncounted enqueuers + dequeuers about to undo; and never fewer nodes than reservations and uncounted nodes |
| `QueueTheorems.EmptyVerdict` | Common/LockFree/LockFreeQueue(CAS).h:92-97 | Dequeue reports empty if and only if, at its reservation, every queued node is matched by an operation in flight |
| `QueueTheorems.RefusalVerdict` | Common/LockFree/MaxLockFreeQueue(CAS).h:48-52 | the bounded queue refuses if and only if the queued nodes exceed the operations in flight by the limit, and then the queue does hold at least limit nodes |
| `QueueRuns.EmptyAfterEnqueue` | Common/LockFree/LockFreeQueue(CAS).h:92-97 | a run in which Dequeue reports empty although an Enqueue has completed and no present node is reserved |
| `QueueTheorems.ReservedFindsNode` | Common/LockFree/LockFreeQueue(CAS).h:92-125 | a dequeuer past the size test has a queued node |
| `QueueTheorems.WaitHasWaker` | Common/LockFree/LockFreeQueue(CAS).h:66-125 | a reserved dequeuer facing a null successor coexists with an enqueuer between its two CASes whose very next step ends the wait |
| `QueueTheorems.SoloDequeue` | Common/LockFree/LockFreeQueue(CAS).h:99-131 | with a linked head a reserved dequeuer running alone returns the oldest data within nine steps, whatever stale values it holds |
| `QueueTheorems.NoDeadlock` | Common/LockFree/LockFreeQueue(CAS).h:66-131 | from every reachable state one enqueuer step at most and nine own steps let any reserved dequeuer finish |
| `QueueTheorems.BoundedLength` | Common/LockFree/MaxLockFreeQueue(CAS).h:48-79 | with T threads both `_size` and the real length stay at most `_maxSize` + T - 1 |
| `QueueTheorems.NodesAccountedFor` | Common/LockFree/LockFreeQueue(CAS).h:45-136 | every node is in the pool, at exactly one chain position, or held by exactly one running call |
| `QueueTheorems.Quiescent` | Common/LockFree/LockFreeQueue(CAS).h:43-139 | with no call running `_size` equals the number of queued nodes and no node is lost |
| `QueueCalls.CallsFollow` | Common/LockFree/LockFreeQueue(CAS).h:43-139 | in every run each thread's calls follow a protocol: Enqueue wins one swap of its own data before it returns, or is refused by the size it read; Dequeue fails because of the size it read, or wins one swap and returns its data |
| `QueueCalls.EnqueueCall` | Common/LockFree/MaxLockFreeQueue(CAS).h:48-82 | a whole Enqueue call of any run: one won swap of its data, unless the queue is bounded and the size read has reached the limit |
| `QueueCalls.DequeueCall` | Common/LockFree/LockFreeQueue(CAS).h:92-139 | a whole Dequeue call of any run: it reports empty if and only if the size it read was below one, and otherwise returns the data of its one won swap |
| `QueueCalls.ReservedSucceeds` | Common/LockFree/LockFreeQueue(CAS).h:99-138 | a dequeuer past the size test, whether the head is linked or not, stays past it or takes the oldest data, which it returns; it never reports empty |
| `QueueCalls.NothingDropped` | Common/LockFree/LockFreeQueue(CAS).h:43-139 | over any run, for every value: Enqueue calls begun = won tail swaps + refused + under way; won head swaps = Dequeue calls returned + about to |
| `QueueCalls.EnqueueCanFinish` | Common/LockFree/LockFreeQueue(CAS).h:45-77 | from every reachable state an Enqueue with its node, running alone, ends within six steps, whatever stale values it holds |
| `QueueCalls.CallsFollowWrapped` | Common/LockFree/LockFreeQueue(CAS).h:43-139 | with tags of any width, runs that publish no held word follow the same protocol |
| `QueueTightness.SoloEnqueue` | Common/LockFree/LockFreeQueue(CAS).h:43-82 | an enqueuer with a node, running alone on an open tail, finishes: the node is linked behind the tail and counted |
| `QueueTightness.BoundIsReached` | Common/LockFree/MaxLockFreeQueue(CAS).h:48-79 | for every limit and thread count some run leaves limit + threads - 1 nodes with no call running, so the bound is exact |
| `QueueTags.TagBelow` | Common/LockFree/LockFreeQueue(CAS).h:48-66 | after n won tail swaps the tail's tag is below 2^n, whatever the threads do |
| `QueueTags.TagIsReached` | Common/LockFree/LockFreeQueue(CAS).h:48-66 | for every number n of threads some run reaches the tag 2^n - 1 after n won swaps, so the bound is exact |
| `QueueWrap.WrappedIsNatural` | Common/LockFree/LockFreeQueue(CAS).h:43-139 | with tags of any fixed width, a run in which no won swap publishes a word of the tail or head that a thread still holds from a read is, value by value, a run with natural tags |
| `QueueWrap.FifoWrapped` | Common/LockFree/LockFreeQueue(CAS).h:43-139 | every such run is first in, first out, with nothing lost and nothing twice |
| `QueueWrap.FifoUntilLastTag` | Common/LockFree/LockFreeQueue(CAS).h:57-66 | no word comes back, and the queue is first in, first out, as long as no enqueuer reads a tail that carries the last tag |
| `QueueRuns.ReusedTagBreaks` | Common/LockFree/LockFreeQueue(CAS).h:99-131 | for every width a run in which the head word a sleeping dequeuer has read comes back, its swap wins, and it returns data that are not in the queue |
| `TaggedPointer.PackRoundTrip` | Common/LockFree/LockFreeQueue(CAS).h:57-65 | address and tag can both be read back from the packed word |
| `TaggedPointer.IncrementTag` | Common/LockFree/LockFreeQueue(CAS).h:59-60 | adding MAKETAG to the masked tag is the tag plus one modulo 2^16, with no effect on the address |
| `TaggedPointer.NextCountFields` | Common/LockFree/LockFreeQueue(CAS).h:57-61 | one pass keeps the node address and ORs the next tag into the tag field |
| `TaggedPointer.OfferedTag` | Common/LockFree/LockFreeQueue(CAS).h:48-66 | after any number of failed attempts the offered word still names the new node and its tag exceeds the one it would replace if and only if that one is not the last 16-bit value |
| `TaggedPointer.AgreesWithModel` | Common/LockFree/LockFreeQueue(CAS).h:57-61 | a pass of the word arithmetic is a pass of the natural-number model if and only if the tag read is not the last 16-bit value |
| `TaggedPointer.TagIsModular` | Common/LockFree/LockFreeQueue(CAS).h:57-61 | on every pass the tag field is the natural-number OR modulo 2^16 |
| `StackTheorems.LifoFromEmpty` | Common/LockFree/LockFreeStack.h:34-78 | in every run the won swaps, in order, are a legal history of a sequential stack that ends in the actual content |
| `StackTheorems.Lifo` | Common/LockFree/LockFreeStack.h:34-78 | the same from any invariant state |
| `StackTheorems.StepRefines` | Common/LockFree/LockFreeStack.h:46-74 | each step is one push or pop of a sequential stack or invisible |
| `StackTheorems.StepInv` | Common/LockFree/LockFreeStack.h:34-78 | every step of every thread and of the pool keeps the invariant |
| `StackTheorems.PushStructure` | Common/LockFree/LockFreeStack.h:36-46 | a won push puts the node on top |
| `StackTheorems.PopStructure` | Common/LockFree/LockFreeStack.h:65-76 | a won pop returns the data pushed with the top and exposes the node under it, even if the node was popped, freed and pushed again between the reads |
| `StackTheorems.SizeAccounts` | Common/LockFree/LockFreeStack.h:46-62 | nodes = `_size` + reserved poppers + uncounted pushers + poppers about to undo, and never fewer nodes than reservations and uncounted nodes |
| `StackTheorems.EmptyVerdict` | Common/LockFree/LockFreeStack.h:58-63 | Pop reports empty if and only if, at its reservation, every present node is matched by an operation in flight |
| `StackRuns.EmptyAfterPush` | Common/LockFree/LockFreeStack.h:58-63 | a run in which Pop reports empty although a Push has completed and no present node is reserved |
| `StackTheorems.NoNullTop` | Common/LockFree/LockFreeStack.h:65-73 | a popper past the size test never reads a null top, and no thread dereferences unmapped memory |
| `StackTheorems.SoloPop` | Common/LockFree/LockFreeStack.h:65-74 | a reserved popper running alone returns the data on top within seven steps |
| `StackTheorems.PopCanFinish` | Common/LockFree/LockFreeStack.h:58-78 | from every reachable state any popper past the size test can finish on its own |
| `StackCalls.CallsFollow` | Common/LockFree/LockFreeStack.h:34-78 | in every run, with keys of any width, each thread's calls follow a protocol: Push returns after one won swap of its own data, Pop fails because of the size it read or returns the data of one won swap |
| `StackCalls.PushCall` | Common/LockFree/LockFreeStack.h:34-49 | a whole Push call of any run: one won swap, of the data it was called with |
| `StackCalls.PopCall` | Common/LockFree/LockFreeStack.h:51-78 | a whole Pop call of any run: it reports empty if and only if the size it read was below one, and otherwise returns the data of its one won swap |
| `StackCalls.NothingDropped` | Common/LockFree/LockFreeStack.h:34-78 | over any run, for every value: Push calls begun = won pushes + under way; won pops = Pop calls returned + about to |
| `StackCalls.PushCanFinish` | Common/LockFree/LockFreeStack.h:36-48 | from every reachable state a Push with its node, running alone, ends within six steps with its data on top |
| `StackWrap.WrappedIsNatural` | Common/LockFree/LockFreeStack.h:34-78 | with keys of any fixed width, a run in which no push publishes a word that a thread still holds from a read of the top is, value by value, a run with natural keys |
| `StackWrap.LifoWrapped` | Common/LockFree/LockFreeStack.h:34-78 | every such run is last in, first out, with nothing lost and nothing twice |
| `StackWrap.LifoOfFewPushes` | Common/LockFree/LockFreeStack.h:38 | a run that draws fewer than 2^b keys publishes no held word and is last in, first out |
| `StackRuns.SoloPush` | Common/LockFree/LockFreeStack.h:34-49 | a push running alone puts its node on top with the next key and counts it |
| `StackRuns.SoloPopTop` | Common/LockFree/LockFreeStack.h:51-78 | a pop running alone on a non-empty stack takes the top and frees its node |
| `StackRuns.ReusedKeyBreaks` | Common/LockFree/LockFreeStack.h:38-46 | for every width a run in which a Pop that slept across one push takes data that are not on top and puts a freed node there, because a Push slept between its key and its swap while all other keys were drawn |
| `BattleTables.RowsAgree` | Servers/BattleSessionServer/BattleDB.cpp:255-292 | the rows of the record insert and of the stat upsert tell the same wins and losses for the same accounts |
| `BattleTables.AcceptedExactly` | Servers/BattleSessionServer/BattleDB.cpp:246-292 | on consistent tables a result goes through if and only if its match is new and its six accounts are distinct, so resubmitting changes nothing |
| `BattleTables.AppliedExactly` | Servers/BattleSessionServer/BattleDB.cpp:145-292 | an accepted result stores the winner in the history, for each player team, slot and outcome, and one more battle in its stat row, won exactly if its team is the winner; no other row changes |
| `BattleTables.RecordsStored` | Servers/BattleSessionServer/BattleDB.cpp:255-271 | the record statement stores team 0 and 1, slots 0 to 2 and the outcome under the right accounts, and nothing else |
| `BattleTables.StatsAdded` | Servers/BattleSessionServer/BattleDB.cpp:273-292 | the stat statement adds to every account one battle per place in a team, won or lost as that team, and touches no other row |
| `BattleTables.StatsAfter` | Servers/BattleSessionServer/BattleDB.cpp:273-292 | after a result every stat row is again the aggregation of the account's records: total, wins, losses |
| `BattleTables.HistoryAfter` | Servers/BattleSessionServer/BattleDB.cpp:246-271 | after a result every history row has exactly six records, each winning if and only if winner = team + 1 |
| `BattleTables.ApplyKeepsConsistent` | Servers/BattleSessionServer/BattleDB.cpp:145-292 | a complete result keeps history, records and stats in agreement |
| `BattleTables.PartialIsInconsistent` | Servers/BattleSessionServer/BattleDB.cpp:161-213 | stopping after the first or second statement would break that agreement, so atomicity is needed |
| `BattleTables.ApplyAllConsistent` | Servers/BattleSessionServer/BattleDB.cpp:102-143 | any sequence of stored results leaves the tables consistent and stores no match twice |
| `BattleTables.EmptyConsistent` | Servers/BattleSessionServer/README.md:279-292 | empty tables are consistent, so every sequence of stored results from them is |
| `BattleDB.DBConnector.BeginTransaction` | Common/TLS/DBConnector.h:36 | what BEGIN may do: open a transaction on the committed tables, implicitly committing open work, or fail |
| `BattleDB.DBConnector.QuerySave` | Common/TLS/DBConnector.h:40-53 | what a statement may do: take effect, be refused, lose the transaction or the connection; with bounded faults only a key refusal or a counted transient error |
| `BattleDB.DBConnector.Commit` | Common/TLS/DBConnector.h:37 | what COMMIT may do: a failure may hide a commit that took effect |
| `BattleDB.DBConnector.Rollback` | Common/TLS/DBConnector.h:38 | what ROLLBACK may do |
| `BattleDB.BattleDB.InsertBattleHistory` | Servers/BattleSessionServer/BattleDB.cpp:246-253 | the open work gains the history row or the statement failed |
| `BattleDB.BattleDB.InsertPlayerBattleRecords` | Servers/BattleSessionServer/BattleDB.cpp:255-271 | the open work gains all six records or none |
| `BattleDB.BattleDB.UpsertPlayerBattleStats` | Servers/BattleSessionServer/BattleDB.cpp:273-292 | the open work gains the six stat additions or none |
| `BattleDB.BattleDB.Abandon` | Servers/BattleSessionServer/BattleDB.cpp:161-177 | a failed statement is rolled back and reported with its original error |
| `BattleDB.BattleDB.Transact` | Servers/BattleSessionServer/BattleDB.cpp:161-235 | behind BEGIN: the three statements and COMMIT in order up to the first that fails, which is the stage reported, and then ROLLBACK |
| `BattleDB.BattleDB.SaveBattleResultOnce` | Servers/BattleSessionServer/BattleDB.cpp:145-244 | from any session state one attempt stores the result whole or not at all, on the committed tables or, if a transaction had been left open, on its work, which BEGIN commits; success means stored, a failure outside COMMIT means not stored; the calls made are exactly those of the reported stage; with bounded faults it is saved, refused by a key, or hit by a transient fault |
| `BattleDB.BattleDB.SaveBattleResult` | Servers/BattleSessionServer/BattleDB.cpp:102-143 | from any session state, over all attempts and every fault schedule, hidden commits included: stored at most once and whole on one of these two bases; success means stored, exhausted retry and failures outside COMMIT mean not stored, a stored match is never stored again; the calls made are those of attemptCount attempts, all but the last failed with a retryable error, and the report is the last one's; on a live session with fewer transient faults to come than attempts exactly the admissible results are saved |
| `BattleDB.BattleDB.Serve` | Servers/BattleSessionServer/README.md:181-217 | a worker's whole request queue: the tables end as if a subsequence of the requests had been applied in order, with distinct matches; all successes are in it, so no match succeeds twice, and everything else in it failed at COMMIT; the tables stay consistent |
| `RingBuffer.RingBuffer.Enqueue` | Common/RingBuffer.h:72-107 | appends all bytes if they fit, otherwise changes nothing |
| `RingBuffer.RingBuffer.Dequeue` | Common/RingBuffer.h:108-163 | takes the oldest bytes, exactly min(asked, present), across the wrap |
| `RingBuffer.RingBuffer.Peek` | Common/RingBuffer.h:164-215 | returns what Dequeue would and leaves the buffer alone |
| `RingBuffer.RingBuffer.GetUsedSize` | Common/RingBuffer.h:53-66 | the number of bytes in the queue |
| `RingBuffer.RingBuffer.GetFreeSize` | Common/RingBuffer.h:67-70 | capacity minus the bytes in the queue |
| `RingBuffer.RingBuffer.ClearBuffer` | Common/RingBuffer.h:217-220 | empties the queue |
| `RingBuffer.RingBuffer.DirectEnqueueSize` | Common/RingBuffer.h:222-244 | the longest free stretch at rear that does not wrap |
| `RingBuffer.RingBuffer.DirectDequeueSize` | Common/RingBuffer.h:245-258 | on a non-empty buffer the longest live stretch at front; on an empty one, and only there, more than is live |
| `RingBuffer.RingBuffer.MoveRear` | Common/RingBuffer.h:260-282 | publishes n written bytes; for n beyond the free space the clamping is right exactly when front > 0, its result exactly when the buffer is not empty |
| `RingBuffer.RingBuffer.MoveFront` | Common/RingBuffer.h:283-306 | drops min(n, present) oldest bytes |
| `RingBuffer.ViewAppend` | Common/RingBuffer.h:72-107 | writing bytes after rear across the wrap and moving rear past them appends them |
| `RingBuffer.ViewDrop` | Common/RingBuffer.h:283-306 | moving front past k bytes across the wrap drops the k oldest |
| `RingBuffer.RingBuffer.ReceiveDirect` | Common/RingBuffer.h:222-282 | filling the direct segment, then the rest from index 0, then MoveRear gives the same queue as Enqueue |
| `RingBuffer.RingBuffer.SendDirect` | Common/RingBuffer.h:245-306 | sending from the direct segment and MoveFront of the bytes sent splits the queue without loss |
| `RingSpsc.StepInv` | Common/RingBuffer.h:72-163 | every step of producer and consumer keeps the invariant although each reads the other's cursor twice |
| `RingSpsc.FifoBytes` | Common/RingBuffer.h:72-163 | in every interleaving the consumer gets the producer's bytes in order; what is published and not taken is the live content, never more than size - 1 |
| `SpscCalls.PutsFollow` | Common/RingBuffer.h:72-107 | in every interleaving each Enqueue call reads the free size and then publishes all of its bytes or, if that was too small, none |
| `SpscCalls.EnqueueCall` | Common/RingBuffer.h:72-107 | a whole Enqueue call: the published bytes grow by exactly its data, or stay the same if and only if the free size it read is below their number |
| `SpscCalls.WrittenByCalls` | Common/RingBuffer.h:72-107 | nothing but the calls publishes bytes |
| `SpscCalls.TakesFollow` | Common/RingBuffer.h:108-163 | in every interleaving each Dequeue call takes what it asked for if the used size it read covers that, and otherwise the used size it reads then |
| `SpscCalls.DequeueCall` | Common/RingBuffer.h:108-163 | a whole Dequeue call: the bytes taken grow by exactly that number |
| `SpscCalls.TakenByCalls` | Common/RingBuffer.h:108-163 | nothing but the calls takes bytes |
| `SpscCalls.CallsEnd` | Common/RingBuffer.h:72-163 | every own step brings a call nearer to its end, except a broken short read |
| `RingSpsc.SidesStayApart` | Common/RingBuffer.h:72-163 | neither call gets stuck or leaves the array or the caller's array, except a short read that is broken, and the two sides never touch the same byte |
| `RingSpsc.ShortReadExactly` | Common/RingBuffer.h:138-161 | in every run the short-read branch stays in both arrays if and only if rear did not move across index 0 between its reads and the bytes it sees now are no more than asked; otherwise the length is negative exactly in the first case and exceeds the request exactly in the second |
| `RingSpsc.TakesAtMostAsked` | Common/RingBuffer.h:108-163 | a Dequeue that is not broken takes no more bytes than asked |
| `RingSpsc.ShortReadBreaks` | Common/RingBuffer.h:138-161 | a run from the empty buffer that ends with the length -1 |
| `RingSpsc.ShortReadOverruns` | Common/RingBuffer.h:138-161 | a run on six bytes in which a Dequeue of two bytes copies three, with no wrap |
| `RingSpsc.SeenSizeIsServed` | Common/RingBuffer.h:108-136 | a consumer that asks for no more than a used size it has seen never enters the short-read branch, whatever the producer does meanwhile |
| `MatchIDGenerator.WordIsSum` | Servers/BattleSessionServer/MatchIDGenerator.cpp:65-76 | shift and OR put the three fields side by side without overlap |
| `MatchIDGenerator.SignExactly` | Servers/BattleSessionServer/MatchIDGenerator.cpp:65-76 | the identifier is non-negative if and only if the timestamp is below 2^41 |
| `MatchIDGenerator.FieldsDecode` | Servers/BattleSessionServer/MatchIDGenerator.cpp:65-76 | timestamp, server and sequence are read back from the identifier |
| `MatchIDGenerator.OrderIsStampOrder` | Servers/BattleSessionServer/MatchIDGenerator.cpp:65-76 | signed order of one server's identifiers is the order of (timestamp, sequence) |
| `MatchIDGenerator.FirstBeyondFacts` | Servers/BattleSessionServer/MatchIDGenerator.cpp:52-63 | the wait ends at the first reading beyond the last timestamp, or the trace never exceeds it |
| `MatchIDGenerator.NextFacts` | Servers/BattleSessionServer/MatchIDGenerator.cpp:12-39 | one call moves the stamp strictly forward and its timestamp is the maximum of all readings so far |
| `MatchIDGenerator.NextExactly` | Servers/BattleSessionServer/MatchIDGenerator.cpp:12-39 | a new timestamp starts at sequence 0, the same one continues with the next; a call waits if and only if there is no reading, or the sequence is used up and no reading passes the last timestamp |
| `MatchIDGenerator.StampsIncrease` | Servers/BattleSessionServer/MatchIDGenerator.cpp:12-39 | stamps increase over any trace |
| `MatchIDGenerator.IDsIncrease` | Servers/BattleSessionServer/MatchIDGenerator.cpp:12-39 | for every clock trace, backward jumps included, issued identifiers strictly increase |
| `MatchIDGenerator.SameMillisecond` | Servers/BattleSessionServer/MatchIDGenerator.cpp:20-29 | at most 4096 identifiers share a timestamp |
| `MatchIDGenerator.ServersNeverCollide` | Servers/BattleSessionServer/MatchIDGenerator.cpp:12-39 | generators with different server numbers never issue the same identifier |
| `MatchIDGenerator.MatchIDGenerator.WaitNextMillisecond` | Servers/BattleSessionServer/MatchIDGenerator.cpp:52-63 | the polling loop returns the first reading beyond the last timestamp |
| `MatchIDGenerator.MatchIDGenerator.Create` | Servers/BattleSessionServer/MatchIDGenerator.cpp:12-39 | the object's call issues the identifier of the next stamp and keeps the running maximum; without a usable reading it issues none |
| `PacketCodec.LittleEndianRoundTrip` | Common/CPacket.cpp:56-186 | a word survives the byte representation |
| `PacketCodec.LittleEndianOnto` | Common/CPacket.cpp:191-321 | every byte string is the representation of the word it decodes to |
| `PacketCodec.EncodeAt` | Common/CPacket.cpp:56-186 | byte i of every value is the value over 256 to the i, rounded down, modulo 256, which for negative values is two's complement |
| `PacketCodec.KindRanges` | Common/CPacket.cpp:56-186 | the ranges of the eleven C++ types |
| `PacketCodec.TakeExactly` | Common/CPacket.cpp:191-321 | an extraction fails if and only if too few bytes are left, which it leaves; otherwise the bytes were the encoding of its value followed by the rest |
| `PacketCodec.DecodeEncode` | Common/CPacket.cpp:56-321 | each of the eleven types survives encoding and decoding, negative values included |
| `PacketCodec.StreamRoundTrip` | Common/CPacket.cpp:56-321 | any list of typed values reads back equal and in order and leaves what follows untouched |
| `PacketCodec.SameBytesSameValues` | Common/CPacket.cpp:56-186 | lists of the same kinds with the same bytes are equal |
| `PacketCodec.EncodedLength` | Common/CPacket.cpp:56-186 | the encoded length is the sum of the widths |
| `PacketCodec.WidthsFit` | Common/CPacket.cpp:56-321 | after Clear, whatever is read in between, every write is accepted and stays in the buffer as long as the widths written total at most BufferSize - 5 |
| `PacketCodec.WidthsFitExactly` | Common/CPacket.cpp:56-321 | a sequence stores all it writes and stays in the buffer if and only if the widths written total at most BufferSize - 5 |
| `PacketCodec.GuardOverruns` | Common/CPacket.cpp:56-321 | for every buffer size a sequence that writes one byte more, each read at once, passes the guard and ends beyond the buffer |
| `PacketCodec.StaysInsideAtEnd` | Common/CPacket.cpp:56-321 | a sequence of reads and writes stays in the buffer if and only if its final write position does |
| `PacketCodec.Exchange` | Common/CPacket.cpp:56-321 | the operators, run on a cleared packet, stay in the buffer exactly when the cursor arithmetic says so |
| `PacketCodec.SBuffer.Clear` | Common/SerialBuffer.h:72-78 | cursors to 5, no live bytes |
| `PacketCodec.SBuffer.MoveWritePos` | Common/SerialBuffer.h:130-135 | the bytes behind the write cursor become live; the buffer stays valid exactly when they lie inside it |
| `PacketCodec.SBuffer.MoveReadPos` | Common/SerialBuffer.h:136-141 | the oldest live bytes are dropped; the buffer stays valid exactly when there are that many |
| `PacketCodec.CPacket.Put` | Common/CPacket.cpp:56-186 | appends the value's bytes to the live bytes in place, or changes nothing when the guard refuses; reports exactly when the guard passes a write that would leave the buffer |
| `PacketCodec.CPacket.Get` | Common/CPacket.cpp:191-321 | takes the value off the front of the live bytes, or changes nothing when too few are left |
| `PacketCodec.CPacket.PutAll` | Common/CPacket.cpp:56-186 | on a cleared packet any list that fits behind the header is stored whole |
| `PacketCodec.CPacket.GetAll` | Common/CPacket.cpp:191-321 | a chain of extractions |
| `PacketCodec.WriteThenRead` | Common/CPacket.cpp:56-321 | clear, write any fitting list, read it back: the same values in order and nothing left |
| `FighterRpc.FightStub.ProcMessage` | Servers/BattleSessionServer/RPC_Fighter/FighterStub.cpp:5-62 | consumes the packet in place and dispatches as the decoding function says |
| `FighterRpc.StubInverts` | Servers/BattleSessionServer/RPC_Fighter/FighterStub.cpp:5-62 | the stub inverts the client encoding of each of its five messages |
| `FighterRpc.StubAcceptsOnlyEncodings` | Servers/BattleSessionServer/RPC_Fighter/FighterStub.cpp:5-62 | whatever reaches a handler from a full-length packet was the encoding of exactly that message |
| `FighterRpc.ShortPacket` | Servers/BattleSessionServer/RPC_Fighter/FighterStub.cpp:7-56 | a packet cut short still reaches its handler, with zero for every argument that does not fit |
| `FighterRpc.OtherPackets` | Servers/BattleSessionServer/RPC_Fighter/FighterStub.cpp:7-61 | other types go to the default handler; an empty packet is dispatched by the uninitialised type variable |
| `FighterRpc.WireInjective` | Servers/BattleSessionServer/RPC_Fighter/FighterProxy.cpp:6-104 | the nine server encodings are injective across kinds and arguments |
| `FighterRpc.WireBytes` | Servers/BattleSessionServer/RPC_Fighter/FighterProxy.cpp:6-104 | the bytes of the nine server messages, with their type numbers and every argument in its place |
| `FighterRpc.WireReads` | Servers/BattleSessionServer/RPC_Fighter/FighterProxy.cpp:6-104 | a receiver that extracts the kinds of a message reads its type number and its arguments in order |
| `FighterRpc.ClientBytes` | Servers/BattleSessionServer/RPC_Fighter/FighterDefine.h:7-15 | the bytes of the five client messages, with their type numbers |
| `FighterRpc.FightProxy.SendToAll` | Servers/BattleSessionServer/RPC_Fighter/FighterProxy.cpp:12-15 | the same packet goes to the first count sessions, in order |
| `FighterRpc.FightProxy.ProxySCCreateMe` | Servers/BattleSessionServer/RPC_Fighter/FighterProxy.cpp:6-16 | each listed session is sent the wire form of the message |
| `FighterRpc.FightProxy.ProxySCCreateOther` | Servers/BattleSessionServer/RPC_Fighter/FighterProxy.cpp:17-27 | each listed session is sent the wire form of the message |
| `FighterRpc.FightProxy.ProxySCDelete` | Servers/BattleSessionServer/RPC_Fighter/FighterProxy.cpp:28-38 | each listed session is sent the wire form of the message |
| `FighterRpc.FightProxy.ProxySCMoveStart` | Servers/BattleSessionServer/RPC_Fighter/FighterProxy.cpp:39-49 | each listed session is sent the wire form of the message |
| `FighterRpc.FightProxy.ProxySCMoveStop` | Servers/BattleSessionServer/RPC_Fighter/FighterProxy.cpp:50-60 | each listed session is sent the wire form of the message |
| `FighterRpc.FightProxy.ProxySCAttack1` | Servers/BattleSessionServer/RPC_Fighter/FighterProxy.cpp:61-71 | each listed session is sent the wire form of the message |
| `FighterRpc.FightProxy.ProxySCAttack2` | Servers/BattleSessionServer/RPC_Fighter/FighterProxy.cpp:72-82 | each listed session is sent the wire form of the message |
| `FighterRpc.FightProxy.ProxySCAttack3` | Servers/BattleSessionServer/RPC_Fighter/FighterProxy.cpp:83-93 | each listed session is sent the wire form of the message |
| `FighterRpc.FightProxy.ProxySCDamage` | Servers/BattleSessionServer/RPC_Fighter/FighterProxy.cpp:94-104 | each listed session is sent the wire form of the message |
| `PacketRefs.StepInv` | Common/CPacket.cpp:6-47 | every construct, copy, token, adopt, destroy, assign and pool step keeps the books of every buffer |
| `PacketRefs.CountIsReferences` | Common/CPacket.cpp:6-47 | refcnt = live handles + outstanding tokens + references overwritten by operator= |
| `PacketRefs.NoUseAfterFree` | Common/SerialBuffer.h:562-575 | a buffer some handle or token reaches is not in the pool and not on its way there |
| `PacketRefs.ReturnedOnce` | Common/SerialBuffer.h:562-575 | each allocation is freed at most once, and exactly once when the buffer is back in the pool |
| `PacketRefs.LeakExactly` | Common/CPacket.cpp:36-41 | with all references gone a buffer is back in the pool if and only if operator= never overwrote a handle to it |
| `PacketRefs.RefsAreTraced` | Common/CPacket.cpp:6-47 | every reference leads to the buffer at the origin of its copies, tokens and assignments in the schedule |
| `PacketRefs.HistoriesAreTraced` | Common/CPacket.cpp:36-41 | the overwritten references, Alloc and Free calls counted by the model are those of the schedule |
| `PacketRefs.CountFollowsSchedule` | Common/CPacket.cpp:6-47 | refcnt, and whether the buffer is in the pool, from the schedule alone |
| `PacketRefs.AssignmentLeaks` | Common/CPacket.cpp:36-41 | a run in which one assignment keeps a buffer out of the pool for ever |
| `ConfigParser.FindAlpha` | Common/Parser.cpp:239-251 | the first place of the key's first character, or none |
| `ConfigParser.FindWord` | Common/Parser.cpp:253-276 | whether the run up to the next delimiter is the key, and where the pointer is left; the character before the run is not looked at |
| `ConfigParser.FindKey` | Common/Parser.cpp:71-79 | in a block with a delimiter before its brace the skip-ahead scan terminates inside the block and finds the least position where the run is the key, or shows there is none |
| `ConfigParser.ScanFinds` | Common/Parser.cpp:71-79 | the same of the scan as a function, from every position |
| `ConfigParser.Pass` | Common/Parser.cpp:71-79 | one pass of the loop moves on inside the block and keeps how the scan ends |
| `ConfigParser.NoMatchInside` | Common/Parser.cpp:253-276 | what the scan skips cannot match |
| `ConfigParser.ScanStaysExactly` | Common/Parser.cpp:71-142 | the scan of every key stays in the block if and only if the character before the closing brace is a delimiter |
| `ConfigParser.WholeWordExactly` | Common/Parser.cpp:71-142 | the lookup returns the first whole word that is the key, or none, if and only if no word before it ends in the key without being it |
| `ConfigParser.LongerWordWins` | Common/Parser.cpp:253-276 | a file in which the lookup of Port returns the value of XPort |
| `ConfigParser.LineExactly` | Common/Parser.cpp:71-142 | the lookup finds the first line whose key is the name, or none, if and only if no other word before it, keys and values included, ends in the name |
| `ConfigParser.ValueWins` | Common/Parser.cpp:253-276 | a file in which the lookup of Port fails, because the word Port is an earlier value, although a line for Port follows |
| `ConfigParser.ReadText` | Common/Parser.cpp:82-113 | the value text after the colon, read inside the block, or the missing-colon and missing-value errors |
| `ConfigParser.FindText` | Common/Parser.cpp:170-212 | the text that belongs to the first match |
| `ConfigParser.TextErrorsExactly` | Common/Parser.cpp:82-93 | no colon is reported if and only if the line holds none, no value if and only if the line ends right behind its first colon |
| `ConfigParser.KeyErrorsExactly` | Common/Parser.cpp:71-142 | the same for the line of the first match |
| `ConfigParser.BlankValue` | Common/Parser.cpp:92-131 | a colon followed by blanks only is not an error but the empty text, which is not a number |
| `ConfigParser.GetValue` | Common/Parser.cpp:48-148 | the value of the text at the first match; no-key exactly when nothing matches |
| `ConfigParser.GetString` | Common/Parser.cpp:151-237 | copies the text and a NUL, or leaves the destination as it was; refused exactly when it does not fit |
| `ConfigParser.AtoiOfDigits` | Common/Parser.cpp:120-123 | a digit string is read as the number it denotes |
| `ConfigParser.DigitsReadExactly` | Common/Parser.cpp:113-131 | a digit string is read as its number except that a zero of several digits is refused |
| `ConfigParser.LoneCharacterReturned` | Common/Parser.cpp:113-119 | a value of one character is returned as its code minus that of 0, a digit's value only for digits |
| `ConfigParser.LetterAccepted` | Common/Parser.cpp:113-119 | a file whose value x is returned as 72 |
| `ConfigParser.PrintedValue` | Common/Parser.cpp:113-131 | every integer printed in canonical decimal is read back |
| `ConfigParser.PrintedIntIsReturned` | Common/Parser.cpp:48-148 | an integer printed after the first match of the key and a colon is what GetValue returns |
| `ConfigParser.PrintedIntOfWord` | Common/Parser.cpp:48-148 | the same for the key as a whole word, if no earlier word ends in it |
| `ConfigParser.PrintedIntOfLine` | Common/Parser.cpp:48-148 | the same for the first line whose key is the name, if no word before it ends in the name |

## Left out

- Form: `LockFreeQueue`, `LockFreeStack`, `RingSpsc` and `PacketRefs` are state machines over values rather than classes with methods, because their subject is the interleaving of atomic steps; the two-segment copies of `RingSpsc` go byte by byte.
- QueueWrap.FifoWrapped: its condition, like that of StackWrap.LifoWrapped, is sufficient; a held word that is published again does harm only if its holder also wins a swap with it, and no theorem says which of those runs stay correct.
- `_size` of the containers does not wrap at 32 bits, and weak memory orders are not modelled.
- QueueTheorems.NoWildAccess: a node that enters the pool for the first time has a `_next` that is null or points to node memory (`Carve`); the indeterminate `_next` of fresh heap memory is not modelled.
- Container destructors, and `GetUsedSize` of the containers, which only reads `_size`.
- BattleDB.BattleDB.Serve: the loop of DBThread in Servers/BattleSessionServer/FighterServer.cpp, for one worker with its own connection; the server may run up to four, and several workers interleaving transactions on the same tables are not modelled, nor is reconnecting after a lost connection.
- BattleDB.BattleDB.Serve: assumes `rollbackDrops` and no transaction open at the start; without it a failed ROLLBACK leaves work that the next BEGIN commits, which `SaveBattleResult` describes and `BattleTables.PartialIsInconsistent` shows to be damage.
- Back-off delays, logging, and the overflow of the unsigned stat columns.
- RingBuffer.RingBuffer.constructor: buffer sizes of at least 1; `Resize` never updates `_size` and is not modelled.
- RingSpsc.ShortReadBreaks: nothing is said about the program after memcpy was handed a negative length, or more bytes than the caller's array holds; the consumer stops there.
- RingBuffer.RingBuffer.ReceiveDirect: the socket calls around the direct segments (Libraries/ContentLibB/ContentsServer.cpp for receiving, MonitorClient/CoreClient.cpp for sending, whose part is `SendDirect`) are reduced to the bytes they transfer.
- Memory order of the RingBuffer cursors, which are plain integers in the code.
- MatchIDGenerator.IDsIncrease: a clock before the custom epoch wraps to a huge unsigned reading, which the bound of 2^41 excludes.
- PacketCodec.CPacket.Put: a write that passes the guard but not the end of the buffer is undefined in the code; the model reports it and stops.
- Floating-point values travel as bit patterns of their width; `SBuffer`'s own operators, `GetData` and `PutData`, and the encryption flag.
- PacketRefs.LeakExactly: 32-bit wrap of `refcnt`; the `DebugBreak` on a negative count, which `CountIsReferences` shows unreachable.
- FighterRpc.FightProxy.SendToAll: `SendPacket` is a log of sessions and bytes; the handlers behind the stub and the other stubs and proxies of the file, which have the same shape.
- ConfigParser.GetValue: characters are below 128; `atoi` overflow, and the comparison of out-of-range integers, are not modelled.
- ConfigParser.GetString: like GetValue, starts from a block that was found and whose closing brace follows a line end; `SetBlock`, `LoadFile` and unterminated files are not modelled.
- Common/MemoryPool.h and the inside of Common/TLS/TlsMemoryPool.h: the pools are an environment.
- Common/ProxyTraceMemory.h, sockets, sessions, matching, fight logic, shutdown, logging, profiling, monitoring and the third-party libraries.
