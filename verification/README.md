# Verified models of the example programs

This project models the stateful cores of the repository in Dafny and proves what they promise, for
every input, every interleaving and every reachable state.

- **The `db` library** (`db/db.c`): a hash-indexed key/value store in two flat files. `Ascii`,
  `DbFormat`, `DbLinks`, `DbBytes`, `DbView` and `DbHeads` give the bytes and the linked lists in them; `Db`
  is the library itself as a class over the bytes of both files, refined to the plain map of `DbSpec`, with
  `DbLayout` saying exactly when a call ends the process instead and what it then leaves; `DbProcs*` is the
  same code run by any number of processes, one lock, unlock, read or write a step.
- **A reference-counted hash table under two kinds of lock** (`threads/mutex2.c`): `Mutex2*`, every
  mutex operation and every access to a shared field a step, with `threads/mutex3.c` (`Foo`, `Mutex3`)
  as its atomic specification and `FooLaws` saying what each call promises.
- **The System V semaphore protocol** (`lib/semaph.c`): `Semaph*`, every system call a step, processes
  dying at any step.
- **The asynchronous rot13 pipeline** (`advio/rot13c2.c`) and its sequential form (`advio/rot13a.c`): `Rot13`.
- **Job lists**: the print spool (`printer/printd.c`: `Jobs`, `Printd`) and the work queue
  (`threads/queue.c`: `Jobs`, `Queue`, and `QueueProcs`, `QueueInv`, `QueueRuns` for its threads).
- **Parallel sort and merge** (`threads/barrier.c`: `Merge`, `Barrier`), **descriptor passing** (`lib/*fd.c`,
  `lib/senderr.c`, `lib/writen.c`: `FdPassing`), **memory streams** (`exercises/fmemopen.c`: `MemStream`)
  and **the tree walk** (`filedir/ftw8.c`: `Ftw`).

`dafny verify dfyconfig.toml` checks everything.

## Findings

Where a law does not hold of the code everywhere, the code is kept and the exact condition is proved.

- A store of a key with a `:` succeeds like any other, and from then on every call on that chain ends in
  `err_dump`, whatever calls come between: `DbLayout.SeparatorStops`, with such a store on a new database in
  `DbLayout.SeparatorStored`. A call ends there exactly when the map has such a key on the chain
  (`Db.DB.Find`), under any interleaving as well (`DbProcsCalls.Serializable`).
- `db_store` ends in `err_dump` or `err_quit` exactly when `DbLayout.StoreAborts` says so: on a bad data
  length, on a chain with such a key, or when it has to append and the record would be too long or lie past
  PTR_MAX (`Db.DB.Store`, `Db.DB.Run`). A store that replaces data of another length has by then deleted the
  old record, so the key is gone; `DbLayout.StoreLosesRecord` gives such calls. `DbLayout.ModestRunsReturn`
  and `DbProcsSizes.ModestInterleavings` bound keys, data and the number of stores so that no call aborts.
- An append that aborts past PTR_MAX leaves a record that `db_nextrec` returns and `db_fetch` does not find.
  A scan after a run on a new database returns the map's nonblank pairs once each and nothing else exactly
  when the run did not end in the abort of a store under a nonblank key that had an allowed data length, got
  through its search and had a record of an allowed length: `Db.RunThenScan` and `DbLayout.OrphanIff`, on a
  condition computed from the calls. `Db.ScanShowsOrphan` makes such a run and such a scan. A scan ends in
  `err_dump` exactly when a key of the map or of such a record has a `:`. All-blank keys are stored, fetched
  and deleted like others, and only `db_nextrec` takes them for deleted records.
- With exactly BIGCOUNT handles open, the next `sem_create` sets `[0]` again under all of them:
  `SemaphRuns.ReinitialisedIff`, and a run that gets there: `SemaphRuns.ReinitialisedAtBigcount`.
- When every number left is LONG_MAX the scan of the merge finds nothing, and the loop goes on from the
  segment that it took from last, into the segments after it and past the array. The output is right
  exactly when no number is LONG_MAX or all of them follow without a gap on the last smaller number taken:
  `Barrier.MergeAll`, with inputs of both kinds in `Barrier.MaxLast`.
- A two-byte trailer that arrives in two pieces ends `recv_fd` in `err_dump`: `FdPassing.Received`. Error
  codes outside -255..-1 arrive as another code: `FdPassing.ErrorRoundTrip`.
- In the modes `w` and `a` the terminating NUL can replace a byte of the contents: `MemStream.EndedFaithful`.
- The walk calls its function twice for a directory that it cannot read, the second time with a slash
  after the path: `Ftw.CallsCounted`. One doubling of the path buffer is enough exactly when it is larger
  than NAME_MAX: `Ftw.DoublingEnough`.

## Model

| member | source | states |
|---|---|---|
| Ascii.AtolPad | db/db.c:333 | atol of a number printed right-justified in any width gives the number back |
| Ascii.PadWidth | db/db.c:625 | a number fills exactly its field if and only if it is below the power of ten of the width |
| DbFormat.Hash | db/db.c:306-316 | the accumulating loop, with signed chars, computes the weighted sum of the characters modulo 2^64 and then modulo the table size |
| DbFormat.BodyRoundTrip | db/db.c:343-418 | a written record body is parsed back to its key, offset and length if and only if the key has no separator; otherwise it is rejected as malformed |
| DbFormat.ParseIff | db/db.c:385-418 | any buffer at all is accepted exactly when it ends in a newline, has just two separators, an offset of at least 0 and a length from 1 to 1024 |
| DbFormat.RecRoundTrip | db/db.c:343-418 | a record without a separator in its key, written anywhere in any file, is read back in full: pointer, key, data offset, data length |
| DbFormat.SeparatedDumps | db/db.c:343-418 | a record written with a separator in its key makes _db_readidx end the process |
| DbFormat.PtrRoundTrip | db/db.c:323-334 | a pointer field written anywhere is read back |
| DbFormat.PtrFieldWidth | db/db.c:618-631 | a pointer fills exactly its field if and only if it is at most PTR_MAX, the bound that _db_writeptr checks |
| DbFormat.EncodeSize | db/db.c:567-612 | an index record occupies exactly pointer, length field and body |
| DbFormat.SampleRecord | db/db.c:567-612 | the bytes of one record, written out |
| DbFormat.SampleHash | db/db.c:306-316 | the hash of two keys, one with a character above 127, written out |
| DbLinks.UnlinkWf | db/db.c:789 | one pointer write takes a record out of a list and leaves every list well formed |
| DbLinks.DivertWf | db/db.c:509 | after the record write of a deletion every list is well formed except for the one pointer that led to the record |
| DbLinks.RepairWf | db/db.c:522 | the last pointer write of a deletion makes that list well formed again |
| DbLinks.PushWf | db/db.c:514 | a filled-in record becomes the first of a list by one pointer write |
| DbLinks.PlaceWf | db/db.c:680-696 | writing a record that no list holds disturbs no list |
| DbLinks.ListIsHome | db/db.c:259-301 | a record is on a list exactly when that list is its home, so no two lists share a record |
| DbLinks.FollowList | db/db.c:284-300 | following pointers from the head visits the list in order and ends at 0 |
| DbBytes.WriteSlot | db/db.c:618-631 | a pointer written to the chain table leaves every other slot and record of the file as it was |
| DbBytes.WriteRecPtr | db/db.c:618-631 | a pointer written into a record changes that record's pointer and nothing else |
| DbBytes.WriteEntry | db/db.c:567-612 | a record rewritten in place with the same size leaves the tiling and every other record as they were |
| DbBytes.AppendEntry | db/db.c:590-611 | a record appended under the append lock extends the tiling by one |
| DbBytes.WriteData | db/db.c:531-560 | data written over an extent changes that extent only |
| DbBytes.AppendData | db/db.c:542-559 | data appended leaves every extent as it was |
| DbBytes.ReadEntry | db/db.c:343-418 | reading at the offset of a record gives that record and ends at the next, or ends the process on a separator in its key |
| DbHeads.ChainReadable | db/db.c:284-300 | only the first record of a chain can have a separator in its key |
| DbHeads.BlockedHead | db/db.c:284-300 | the map has a key with a separator on a chain exactly when the first record of the chain has one |
| DbView.DeleteIndex | db/db.c:473-522 | the three index writes of a deletion, in order, lead from one well-formed file to another with the record blank and on the free list |
| DbView.DeleteMeaning | db/db.c:463-525 | blanking the data and the key takes exactly that key out of the map |
| DbView.UnlinkFree | db/db.c:753-805 | taking a record off the free list keeps file and lists well formed |
| DbView.PublishMeaning | db/db.c:687-697 | the pointer write that publishes a record adds exactly its key and data to the map |
| DbView.ReplaceMeaning | db/db.c:732-738 | overwriting data of the same length changes exactly that key's value |
| Db.DB.constructor | db/db.c:134-160 | a new index file represents the empty map, with an index of just the pointer table, no data and no free record |
| Db.DB.ReadPtr | db/db.c:323-334 | reads the pointer field that leads to any position of any list |
| Db.DB.ReadIdx | db/db.c:343-418 | leaves record, sizes, pointer and file offset in the structure, reports the end of the file, or ends the process exactly on a key with a separator |
| Db.DB.ReadDat | db/db.c:424-435 | reads the data of the current record |
| Db.DB.WritePtr | db/db.c:618-631 | writes exactly one pointer field, or refuses a pointer above PTR_MAX |
| Db.DB.WriteIdx | db/db.c:567-612 | writes exactly one record, in place or at the end, or refuses one that is too long |
| Db.DB.WriteDat | db/db.c:531-560 | writes exactly one data extent, in place or at the end |
| Db.DB.Find | db/db.c:259-301 | ends the process exactly when the map has a key with a separator on the chain; else finds a key exactly when it is in the database, with the cursor on its record and on the pointer that leads there |
| Db.DB.Fetch | db/db.c:234-253 | returns what the map holds for the key, unless the chain is blocked, and changes nothing |
| Db.DB.BlankBuffers | db/db.c:473-478 | the two loops blank key and data without changing their length |
| Db.DB.MoveToFree | db/db.c:483-522 | the record ends up blank at the head of the free list, every list well formed |
| Db.DB.DoDelete | db/db.c:463-525 | removes exactly that key from the map; neither file changes its length, and the free list gains one record of its sizes |
| Db.DB.Delete | db/db.c:441-456 | returns 0 or -1 as the map has the key or not, removes it and frees its record, unless the chain is blocked |
| Db.DB.SearchFree | db/db.c:770-785 | looks along the free list for a record of exactly these sizes |
| Db.DB.FindFree | db/db.c:753-805 | finds a record exactly when the free list has one of these sizes; it leaves the free list, no chain changes, the map is unchanged |
| Db.DB.AppendNew | db/db.c:680-687 | succeeds exactly when record length and offset can be held, and then adds exactly the new pair; else the map is unchanged, the data is in the file, and the record, too, exactly if its length was allowed |
| Db.DB.FillIn | db/db.c:695-697 | filling in a reused record adds exactly the new pair |
| Db.DB.TryReuse | db/db.c:695-697 | a free record of the right sizes, if there is one, is taken, filled in and published |
| Db.DB.StoreNew | db/db.c:661-699 | storing an absent key returns and changes what the map does, for every flag, or aborts exactly when StoreAborts holds; file sizes, free records and orphans are exact in both cases |
| Db.DB.StoreOver | db/db.c:700-739 | storing a present key returns and changes what the map does, whether the data length changes or not, or aborts exactly when StoreAborts holds, without its record; file sizes, free records and orphans are exact in both cases |
| Db.DB.Store | db/db.c:638-746 | for every key, data and flag: returns the map's code and leaves the map's result, or aborts, exactly when StoreAborts holds; the map, the file sizes, the free records and the orphans after either are exact |
| Db.DB.StoreThenFetch | db/db.c:638-746 | a store and then a fetch of that key and of another, for each flag on a present and an absent key: the code, the data found and the other key's data |
| DbSpec.StoreLaw | db/db.c:638-746 | insert returns 1 on a present key, replace -1 on an absent one, any other flag -1, and none of these changes anything; else 0, and a fetch gives the new data; other keys fetch as before |
| DbSpec.DeleteLaw | db/db.c:441-456 | returns 0 exactly for a key that is there; it is not found afterwards, and other keys fetch as before |
| DbSpec.History | db/db.c:233-746 | the returns of every sequence of calls, told from the calls and returns before each alone: the last store that returned 0 counts, unless the key was deleted since |
| DbLayout.StoreLimits | db/db.c:644-652 | data of no byte or more than 1023 ends the process, a bad flag returns -1; neither changes anything |
| DbLayout.SeparatorStops | db/db.c:638-746 | once a key with a separator is stored, every call on its chain aborts and changes nothing, whatever calls come between |
| DbLayout.SeparatorStored | db/db.c:638-746 | such a key is stored on a new database, returns 0, and cannot be fetched |
| Db.DB.Run | db/db.c:233-805 | for every sequence of fetch, store and delete calls: what each returns, whether and where a call aborts, and the map, sizes, free records and orphans it leaves then, so that a later process goes on from there |
| DbLayout.RunIsMap | db/db.c:233-805 | up to an abort, if there is one, those returns and contents are the plain map's; the aborting call is the first that aborts, and what it leaves is what is left |
| DbLayout.OrphanIff | db/db.c:680-687 | a run leaves a record that no list leads to exactly when it ends in the abort of a store that got past length check and search, under a nonblank key, with a record of an allowed length |
| DbLayout.OrphanReached | db/db.c:711-730 | stores of one key on a new database, of one and two bytes in turn, pass PTR_MAX and end in such an abort |
| DbLayout.ModestRunsReturn | db/db.c:531-631 | calls on a new database with no more stores than fit the index, their keys of 1 to 1000 bytes without a separator and data lengths allowed, never abort and return what the plain map returns |
| DbLayout.StoreLosesRecord | db/db.c:711-730 | two stores of which the second aborts and leaves the database without the key that the first stored |
| Db.RunNew | db/db.c:233-805 | every such sequence on a new database returns what the plain map returns, every call, and so what History says |
| Db.RunThenScan | db/db.c:812-875 | a scan after any run on a new database shows exactly what the map holds if and only if the run did not end in such an abort |
| Db.ScanShowsOrphan | db/db.c:812-875 | such a run with the scan after it: the map is empty and the scan returns a pair |
| Db.DB.Rewind | db/db.c:813-827 | the next scan starts at the first record |
| Db.DB.NextRec | db/db.c:836-875 | returns the next record in file order whose key is not blank, or NULL at the end, or ends the process on a separator in that key |
| Db.IsBlank | db/db.c:861-864 | the loop recognises exactly the blank keys |
| Db.DB.Scan | db/db.c:812-875 | rewind and repeated nextrec end the process exactly when some key of the map or of an orphan has a separator; else they return, in file order, every live pair with a nonblank key and every orphaned record; they return just the former, once each, exactly when there is no orphan |
| Db.LiveFacts | db/db.c:836-875 | walking the tiling meets every record once in increasing order |
| Db.ShownOrphan | db/db.c:836-875 | a record on no list makes a scan return a pair that is not in the map, or one key twice |
| DbProcsInv.Exclusive | db/db.c:270-283 | a lock held for writing is held by no other process |
| DbProcsInv.RangesDisjoint | db/db.c:270-283 | the byte ranges of different locks never overlap, so no unlock releases another lock |
| DbProcsInv.NotStale | db/db.c:509-522 | whoever holds a chain finds its pointers up to date, unless it is itself deleting there |
| DbProcsInv.RelyOk | db/db.c:259-301 | what holds at a program point of one process survives any step of another |
| DbProcsWrites.StepDelIdx | db/db.c:509 | the record write that makes the chain run into the free list keeps the invariant |
| DbProcsWrites.StepDelHead | db/db.c:514 | so does the write that makes the record the head of the free list |
| DbProcsWrites.StepDelFix | db/db.c:522 | so does the write that repairs the chain |
| DbProcsWrites.StepFfTake | db/db.c:789 | so does taking a record off the free list |
| DbProcsWrites.StepAppIdx | db/db.c:590-611 | so does appending a record |
| DbProcsWrites.StepLink | db/db.c:687 | so does publishing a record |
| DbProcsRuns.StepKeeps | db/db.c:233-805 | every step of every process keeps the invariant |
| DbProcsRuns.UnlockedChainSound | db/db.c:259-301 | in every reachable state a chain that is not write-locked is acyclic and holds exactly the live records of its keys with the map's data |
| DbProcsRuns.FreeListSound | db/db.c:753-805 | in every reachable state the free list is acyclic, holds blank records only, and shares none with a chain or with a record that a process is moving or filling in |
| DbProcsRuns.AppendsDisjoint | db/db.c:542-611 | in every reachable state the records tile the index and the data extents are disjoint |
| DbProcsKeys.HeadRead | db/db.c:284-300 | whoever reads the first record of a chain, under any interleaving, then knows that the map has no key with a separator there |
| DbProcsCalls.Serializable | db/db.c:233-805 | every interleaving returns and leaves what its calls do one at a time on a plain map, in the order of their returns; a call ends its process exactly on a chain with a separator in a key, and then changes nothing, or it is a store whose record has a length that is not allowed or lies past PTR_MAX, and then leaves the map without its key |
| DbProcsSizes.EndedInside | db/db.c:542-611 | the data offset or record offset on which a store ends lies inside the files |
| DbProcsSizes.FilesBounded | db/db.c:542-611 | in every run the index and data sizes are bounded by the number of stores begun |
| DbProcsSizes.ModestInterleavings | db/db.c:233-805 | in every interleaving of modest calls with no more stores than fit the index every call returns, and returns and contents are the plain map's |
| DbProcsCalls.ReplayIsMap | db/db.c:233-805 | if no call ended its process, those are the returns and contents of the plain map |
| DbProcsMoves.StepFailed | db/db.c:577-631 | a process that ends in a store releases its chain with the files sound and its key gone, and its record had a length or an offset that is not allowed |
| DbProcsMoves.StepUnreadable | db/db.c:284-300 | a process that ends in its search leaves the map as it was, which has a key with a separator on the chain |
| DbProcsBounds.PointersFit | db/db.c:577-625 | in every reachable state the pointer about to be written is at most PTR_MAX, except at the one write where the model makes the test |
| DbProcsRuns.NoDeadlock | db/db.c:270-283 | a process in a call can take a step, or everybody that it waits for can, or waits only for processes that can |
| DbProcsRuns.SharedReads | db/db.c:270-283 | a fetch waits for its chain exactly while a process holds it for writing, a store or deletion while any other call holds it |
| DbProcsEnds.CallsEnd | db/db.c:233-805 | in every run each step of a process in a call brings the call nearer to its end, and no step of another takes it further away |
| Mutex2Inv.Exclusive | threads/mutex2.c:57-64 | no two threads hold hashlock, or the f_lock of the same object |
| Mutex2Inv.RelyOk | threads/mutex2.c:68-104 | what a thread knows at a program point survives every step of the others |
| Mutex2Keeps.StepALink | threads/mutex2.c:33-37 | linking a new object keeps the invariant |
| Mutex2Keeps.StepFInc | threads/mutex2.c:57-64 | counting the reference of foo_find keeps it |
| Mutex2Keeps.StepRCheck2 | threads/mutex2.c:76-85 | the check repeated after relocking decides for good whether this is the last reference |
| Mutex2Keeps.CutOut | threads/mutex2.c:86-95 | the write that unlinks an object keeps the invariant and makes the object the thread's own |
| Mutex2Runs.StepKeeps | threads/mutex2.c:19-104 | every step of every thread keeps the invariant |
| Mutex2Runs.CountsReferences | threads/mutex2.c:19-104 | in every reachable state f_count of an object in the table is the number of references to it, and other objects have none |
| Mutex2Runs.ReferenceIsAlive | threads/mutex2.c:44-104 | an object with a reference is allocated and reached from the head of its chain |
| Mutex2Runs.NoUseAfterFree | threads/mutex2.c:19-104 | no thread reads, writes, locks or unlocks an object that is not allocated |
| Mutex2Runs.FreedAlone | threads/mutex2.c:96-99 | from its unlinking to its free an object has no reference, is on no chain, and no other thread holds its lock or touches it |
| Mutex2Runs.UnlinkWalkEnds | threads/mutex2.c:92-94 | each step of the walk to the predecessor shortens the distance and never reaches the end of the chain |
| Mutex2Runs.UnlinkWalkUndisturbed | threads/mutex2.c:92-94 | other threads leave that distance as it is |
| Mutex2Runs.NothingLeaks | threads/mutex2.c:19-104 | an allocated object is in the table or private to exactly one thread |
| Mutex2Runs.NoDeadlock | threads/mutex2.c:68-98 | a thread inside a call can take a step, or the thread that it waits for can, or that one waits only for a thread that can |
| Mutex2Refines.OneEffect | threads/mutex2.c:19-104 | each call takes effect in exactly one of its own steps and afterwards keeps what it will return |
| Mutex2Refines.Linearizable | threads/mutex2.c:19-104 | every run is a run of the atomic operations, in the order of their effects, with the same results and the same table |
| FooLaws.FindExact | threads/mutex2.c:52-65 | a search finds an object with the id exactly when there is one, and counts one reference to it |
| FooLaws.PromiseKept | threads/mutex2.c:19-104 | in every run each call does to ids and counts, at the step where it takes effect, what it promises |
| Mutex3.FooTable.FooAlloc | threads/mutex3.c:22-45 | under one lock, foo_alloc puts the object at the head of the chain of its id with count 1 |
| Mutex3.FooTable.FooHold | threads/mutex3.c:47-54 | adds one reference and nothing else |
| Mutex3.FooTable.FooFind | threads/mutex3.c:56-70 | returns the first object with the id, with one more reference, or NULL |
| Mutex3.FooTable.FooRele | threads/mutex3.c:72-96 | drops a reference; the last one unlinks and frees the object |
| Mutex3.FooTable.Before | threads/mutex3.c:86-88 | the walk ends at the object whose f_next is to change |
| Mutex3.FooTable.Detach | threads/mutex3.c:81-89 | one pointer write takes exactly that object off its chain |
| SemaphInv.Lock | lib/semaph.c:49-54 | op_lock succeeds exactly when the lock is free and leaves an undo for it |
| SemaphInv.EndCreate | lib/semaph.c:56-61 | op_endcreate counts a handle and gives back the lock, with undo for both |
| SemaphInv.CloseOp | lib/semaph.c:67-71 | op_close takes the lock and gives back a handle, in one step |
| SemaphInv.DieKeeps | lib/semaph.c:16-24 | a death gives back exactly the process's handles and its lock |
| SemaphInv.StepKeeps | lib/semaph.c:105-253 | every step of every process keeps the invariant, except a sem_create that reads 0 from the counter of an initialised set |
| SemaphRuns.CounterExact | lib/semaph.c:130-163 | an initialised set has [1] plus open handles equal to BIGCOUNT; another set has no handle |
| SemaphRuns.LockExact | lib/semaph.c:49-75 | [2] is 1 exactly when one live process is between lock and unlock, and 0 exactly when none is |
| SemaphRuns.NeverReinitialised | lib/semaph.c:138-153 | whoever sets [0] or [1] does so on a set without handles that nobody has initialised |
| SemaphRuns.RemovedUnused | lib/semaph.c:243-252 | sem_close removes the set only when no handle is open, and goes on to remove it exactly then |
| SemaphRuns.DeathUndone | lib/semaph.c:16-24 | a death changes the counter by the process's handles, frees the lock only if it held it, and touches no other process |
| SemaphRuns.CriticalRuns | lib/semaph.c:130-163 | the process in the critical section can always take its next step |
| SemaphRuns.ReinitialisedIff | lib/semaph.c:135-148 | in every run, up to the first time, sem_create on an initialised set sets [0] again exactly when BIGCOUNT handles are open |
| SemaphRuns.FewHandlesCalm | lib/semaph.c:130-153 | it never happens in a run with fewer than BIGCOUNT handles open |
| SemaphRuns.ReinitialisedAtBigcount | lib/semaph.c:105-163 | such a state is reached by some run, and the value of [0] is then overwritten |
| SemaphValue.OpEffect | lib/semaph.c:262-290 | sem_op adds its value to [0] and leaves the opposite to be undone exactly when [0] stays at 0 or more, else it waits; nothing else changes |
| SemaphValue.ZeroOpDies | lib/semaph.c:286-287 | sem_op with value 0 ends the process |
| SemaphValue.CreateSets | lib/semaph.c:138-153 | [0] gets the caller's initial value and [1] gets 10000, and what processes had to undo there is cleared |
| SemaphValue.CreateGets | lib/semaph.c:105-107 | semget joins the set that is there, or makes a new one of zeros with an id of its own |
| SemaphValue.SetGone | lib/semaph.c:124-128 | sem_create that finds its set removed before it has locked it starts again; any other call on a removed set ends the process |
| SemaphValue.ValueConserved | lib/semaph.c:262-290 | in every run [0] and all that is still to be undone on it add up to the value it was last set to, plus what deaths that found [0] too low have fallen short of |
| Rot13.TranslatedTwice | advio/rot13a.c:9-23 | translating twice gives the input back |
| Rot13.TranslatedRotated | advio/rot13a.c:9-23 | the translation is exactly the rotation by 13 within each case, byte by byte |
| Rot13.TranslateBuf | advio/rot13c2.c:109-110 | the loop translates the first n bytes in place and leaves the rest |
| Rot13.Sequential | advio/rot13a.c:37-46 | the sequential loop writes the translation of the whole input: every letter 13 places on in its case, every other byte as it was |
| Rot13.Pipeline.Complete | advio/rot13c2.c:92-138 | the kernel completing any pending operation keeps the invariant |
| Rot13.Pipeline.Slot | advio/rot13c2.c:70-140 | one turn of the switch never fails, keeps numop the number of slots in use and the slots' ranges disjoint, and never increases the work left |
| Rot13.Pipeline.Sweep | advio/rot13c2.c:69-141 | every sweep shortens the work left, or everything is done |
| Rot13.Pipeline.Suspend | advio/rot13c2.c:146-147 | aio_suspend returns with some operation complete |
| Rot13.Pipeline.Pump | advio/rot13c2.c:60-149 | for every input and every order of completions the program ends and the output is the translation of the input: every letter 13 places on in its case, every other byte as it was |
| Rot13.Finished | advio/rot13c2.c:142-144 | with everything issued and every slot unused the output is complete |
| Rot13.OutKept | advio/rot13c2.c:111-115 | a block written at any moment leaves every translated byte translated |
| Rot13.SlotRetired | advio/rot13c2.c:132-138 | a slot may be reused once its write is complete |
| Printd.Spool.AddJob | printer/printd.c:275-294 | the job becomes the last, the list well linked in both directions |
| Printd.Spool.ReplaceJob | printer/printd.c:301-313 | the job becomes the first |
| Printd.Spool.RemoveJob | printer/printd.c:320-331 | a job leaves any position of the list |
| Printd.Spool.Take | printer/printd.c:688-695 | the printer thread takes the first job, if there is one |
| Printd.Spool.Defer | printer/printd.c:832-839 | a deferred job goes back before all others |
| Printd.Spool.Advance | printer/printd.c:684-840 | each critical section of the printer thread keeps disposed, hand and list together equal to the jobs linked |
| Printd.Serve | printer/printd.c:684-840 | in every run the jobs disposed of, the job in hand and the list are together the jobs added, in that order, and each is what Run says |
| Printd.AllPrinted | printer/printd.c:684-840 | once no job is put back any more, two turns of the printer a job print all of them in the order in which they were added |
| Queue.WorkQueue.Worker | threads/queue.c:70-76 | finds the worker with a thread id, or none |
| Queue.WorkQueue.Insert | threads/queue.c:60-91 | puts a job at the head, or returns -1 when no worker has its id |
| Queue.WorkQueue.Append | threads/queue.c:96-128 | puts a job at the tail, or returns -1 when no worker has its id |
| Queue.WorkQueue.Remove | threads/queue.c:133-152 | takes out exactly that job, first, last or between |
| Queue.WorkQueue.Find | threads/queue.c:157-170 | returns the first job addressed to the thread, or NULL |
| QueueInv.FirstHeads | threads/queue.c:164-166 | the first job found for a worker heads the jobs waiting for it, and removing it removes just that one |
| QueueRuns.StepKeeps | threads/queue.c:96-211 | every step of every thread keeps the invariant |
| QueueRuns.FoundStays | threads/queue.c:196-201 | a job returned by job_find stays allocated, linked and first for its worker until that worker removes it |
| QueueRuns.HandledInOrder | threads/queue.c:186-211 | what was appended for a worker is what it has handled and then what waits for it, in order |
| QueueRuns.HandledOnce | threads/queue.c:186-211 | no job is handled twice, or by a worker it is not for |
| QueueRuns.NoDeadlock | threads/queue.c:186-211 | a thread that is not waiting on a condition variable can take a step, or everybody that it waits for is awake and can, or waits only for threads that can |
| Merge.SortSegment | threads/barrier.c:43-48 | a worker sorts its segment and leaves the rest of the array |
| Merge.SortSegments | threads/barrier.c:105-114 | workers finishing in any order leave every segment with its own numbers, sorted |
| Merge.Smallest | threads/barrier.c:72-78 | the scan finds the first segment with the smallest number at its cursor, or leaves minidx alone when all of them are LONG_MAX |
| Merge.MergedNext | threads/barrier.c:79-80 | moving the smallest number over keeps the output sorted and the numbers accounted for |
| Barrier.LedNext | threads/barrier.c:74-80 | numbers are taken in order, equal ones in the order of their segments |
| Barrier.StuckStays | threads/barrier.c:72-80 | once a scan has found nothing no later scan does |
| Barrier.StuckLast | threads/barrier.c:72-80 | the segment taken from last is the highest that has the largest number below LONG_MAX |
| Barrier.Verdict | threads/barrier.c:79-80 | going on from there is right exactly when the numbers equal to LONG_MAX all follow without a gap |
| Barrier.MergeAll | threads/barrier.c:63-82 | merge leaves snums sorted and a permutation of nums exactly when nums is mergeable in that sense; otherwise the output is wrong or the code reads past the array or an unset index |
| Barrier.MaxLast | threads/barrier.c:63-82 | an input with LONG_MAX that is merged correctly and one that is not |
| Barrier.SortParallel | threads/barrier.c:42-115 | the whole program, for any number and size of segments and any order of the workers; right in particular whenever every number is below LONG_MAX |
| FdPassing.AllTaken | lib/writen.c:3-23 | if every write takes something, however little, everything goes out |
| FdPassing.Socket.Writen | lib/writen.c:3-23 | for every sequence of answers of write: returns the whole length exactly when none of those it got was below 1, else -1 or the length that went out |
| FdPassing.Socket.SendFd | lib/sendfd.c:13-49 | returns 0 exactly when both bytes are taken, and has then sent status 0 with the descriptor or a nonzero low byte of the code without |
| FdPassing.Socket.SendErr | lib/senderr.c:8-24 | returns 0 exactly when the whole message and then both bytes of the trailer are taken, and has then sent the message and the trailer of a negative code |
| FdPassing.Scan | lib/recvfd.c:54-68 | finds the trailer exactly when the first NUL is the next to last byte; dumps on any other NUL |
| FdPassing.RecvFd | lib/recvfd.c:29-74 | the loop returns and passes on what Receive says of any sequence of recvmsg results |
| FdPassing.Received | lib/recvfd.c:29-74 | however the stream is cut, message and status arrive if the trailer stays in one piece, and the process dumps if not |
| FdPassing.Closed | lib/recvfd.c:41-47 | a connection closed, or a failing recvmsg, before there was a trailer gives -1, all of the message passed on |
| FdPassing.Refused | lib/recvfd.c:69-70 | a piece of the message that userfunc refuses gives -1, with or without the trailer |
| FdPassing.Answered | lib/recvfd.c:54-73 | a whole trailer gives the descriptor that came with it on status 0, the negated status else, and err_dump on status 0 without a descriptor |
| FdPassing.Misplaced | lib/recvfd.c:54-57 | a NUL anywhere but next to last ends in err_dump |
| FdPassing.OnlyPassed | lib/recvfd.c:59-73 | a result of 0 or more is a descriptor that came with status 0 |
| FdPassing.ErrorRoundTrip | lib/senderr.c:8-24 | the message arrives unchanged with a negative code, which is the code sent exactly when that was in -255..-1, and in any case its low byte negated, or -1 |
| FdPassing.DescriptorRoundTrip | lib/sendfd.c:33-43 | a descriptor sent is the descriptor returned |
| MemStream.TypeToFlags | exercises/fmemopen.c:96-138 | accepts exactly one of r, w, a followed by any + and b, and sets their flags, which are spelt out |
| MemStream.FindEnd | exercises/fmemopen.c:140-151 | the position of the first NUL, or the size |
| MemStream.Fmemopen | exercises/fmemopen.c:36-94 | fails exactly on size 0, a bad type, or no buffer without reading and writing; otherwise position and size follow the mode |
| MemStream.Stream.MsRead | exercises/fmemopen.c:153-171 | reads as the bounded file does, or fails without MS_READ |
| MemStream.Stream.MsWrite | exercises/fmemopen.c:173-204 | writes as the bounded file does in the modes that read and write; in write-only modes the NUL replaces one byte |
| MemStream.Stream.MsSeek | exercises/fmemopen.c:206-229 | moves as the bounded file does, or fails outside it |
| MemStream.Stream.RunAll | exercises/fmemopen.c:153-229 | every sequence of calls in r+, w+ and a+ gets the replies of the bounded file, and position and size stay in bounds |
| MemStream.ReadBack | exercises/fmemopen.c:153-229 | what is written is read back after seeking |
| MemStream.ReadLaw | exercises/fmemopen.c:153-171 | a read delivers the bytes from the position on, as many as asked for or as there are, and moves past them |
| MemStream.WriteLaw | exercises/fmemopen.c:173-195 | a write goes to the position, or to the end when appending, cut at the capacity; every other byte stays |
| MemStream.SeekLaw | exercises/fmemopen.c:206-229 | the three positions a seek counts from, and when it fails |
| MemStream.EndedAt | exercises/fmemopen.c:196-202 | which byte the NUL of a write-only stream replaces |
| MemStream.EndedFaithful | exercises/fmemopen.c:196-202 | a write-only stream keeps the contents exactly when the write ends at their end with room to spare, or the byte is 0 already |
| Ftw.Walker.DoPath | filedir/ftw8.c:76-121 | makes the calls of the tree in preorder up to the first that does not return 0, and leaves its path at the front of the buffer |
| Ftw.Walker.AddSlash | filedir/ftw8.c:96-103 | after at most one doubling there is room for a slash, a name and a NUL |
| Ftw.Walker.Entries | filedir/ftw8.c:108-115 | each entry's path is the directory's with its name, and the directory's prefix survives the recursion and every reallocation |
| Ftw.MyFtw | filedir/ftw8.c:56-68 | the whole walk from any starting path |
| Ftw.VisitsAll | filedir/ftw8.c:84-115 | func is called for every node that names lead to through readable directories, none of the names . or .., with the path they spell and the node's type, and again after a slash for a directory that cannot be read |
| Ftw.VisitsOnly | filedir/ftw8.c:84-115 | func is called for nothing else |
| Ftw.InOrder | filedir/ftw8.c:108-115 | the calls for an entry come together, after those for all entries before it |
| Ftw.CallsCounted | filedir/ftw8.c:84-106 | func is called once per node and once more for each unreadable directory |
| Ftw.PathsDistinct | filedir/ftw8.c:108-115 | no two calls have the same path |
| Ftw.StopsAtFirst | filedir/ftw8.c:113-114 | the walk makes every call up to the first nonzero answer, and returns that answer |
| Ftw.DoublingEnough | filedir/ftw8.c:97-101 | one doubling is enough for every path exactly when the buffer is larger than NAME_MAX |

## Left out

- DbProcsCalls.Serializable: reads and writes of one index record are single steps, and calls that db_store refuses before it locks (bad flag or data length) are not made.
- Db.DB.WriteIdx: the sprintf at db/db.c:577 overruns idxbuf, of IDXLEN_MAX + 2 bytes, on a longer record before its length is tested; the model ends the process as the test does, and so do the other members.
- db_open beyond a new file, db_close, file names, modes, descriptors and memory, and handles shared across fork.
- db_nextrec running beside other processes; the model scans an undisturbed file.
- Signals and errors of lseek, read and write in db.c, which end the process.
- Mutex2Runs.CountsReferences: f_count is unbounded, so overflow of an int is not modelled.
- pthread_mutex_init failing in foo_alloc is one event with malloc failing.
- sem_open takes no lock and can fall between the read and the removal of sem_close.
- SemaphRuns.LockExact: values are unbounded, so the limit SEMVMX is not modelled.
- A process blocked on a set that is removed either starts again (EINVAL) or dies (any other error).
- Short reads and writes and errors of asynchronous operations in rot13c2.c other than the checks themselves.
- Printd.Serve: the critical sections under joblock are atomic; printing, the configuration file, the worker list and the parsing of printer responses are not modelled.
- QueueRuns.HandledInOrder: updates of the list under the write lock are atomic steps on the list that class WorkQueue keeps; job_insert is not part of the runs, since it lets a job overtake.
- Liveness of the workers of queue.c, which can miss a signal.
- Merge.SortSegment: heapsort is given by what it promises.
- FdPassing.RecvFd: bytes that follow the trailer in the same stream are not modelled.
- MemStream.Stream.MsSeek: offsets are unbounded, so the truncation of a position to int is not modelled.
- Ftw.Walker.DoPath: the tree does not change during the walk, and closedir does not fail.
- The counters and percentages of ftw8.c, which only add easy members.
- The remaining programs of the repository: system-call demonstrations, sockets, daemons, terminals and generated tables.
