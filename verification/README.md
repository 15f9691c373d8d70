# Verified models of the xv6-riscv kernel and its user programs

This project models the parts of the repository whose correctness is hardest to
see from the code, and proves what they are for. Code that updates state in
place is modelled by methods on classes, proved against a specification;
protocols between processors, processes, devices and crashes are modelled as
state machines, and the theorems are about every reachable state or every run.

- `RedoLog`, `LogSpace`, `LogProtocol`, `Log` (module `LogLayer`): the redo log of
  kernel/log.c. What is on disk after every block write of a commit or a
  recovery, how much log space operations need, the whole protocol with a crash
  possible between any two block writes, and the operations themselves over the
  buffers of `BufferCache`.
- `BufferCache`: kernel/bio.c against a plain store of block contents.
- `Buddy`, `BuddyInit`, `List`, `BuddyLists`: the buddy allocator of kernel/buddy.c,
  the linked list of kernel/list.c, and the allocator's free lists kept in such
  lists inside the free blocks.
- `PageTable`, `PageRuns`, `Vm`, `Sv39`: page tables and page allocation of
  kernel/vm.c and kernel/kalloc.c against a flat map and an owner for every page,
  and what every run of them keeps.
- `Inode` (module `InodeBlocks`): file contents and the block bitmap of
  kernel/fs.c, and the chunked writes of kernel/file.c.
- `FileCrash`, `FileRuns`: the chunks of filewrite over the log protocol; and any
  number of writers at once, one log_write at a time, over it.
- `SleepLock`, `ExitWait`, `Pipe`, `Virtio`: sleep locks with sleep, wakeup and the
  scheduler; exit and wait; pipes; the disk driver against its device.
- `Umalloc`, `Shell`, `ShellGrammar`, `Grep`: the user-level allocator, the shell's
  parser and the language it accepts, and grep's matcher.
- `Common`: what several of these share.

`dafny verify dfyconfig.toml` checks everything.

## What turned out not to hold as stated

- log_write tests for a full log before it looks for the block it is given, so
  "at most MAXOPBLOCKS distinct blocks per operation" does not keep it from
  panicking on any log size; nine distinct blocks do from 30 blocks on, ten calls
  from 31 on (`LogSpace.PanicReadings`, from the exact condition in
  `LogSpace.PanicFreeExactlyWhenFits`).
- NBUF equals LOGSIZE, so a transaction of LOGSIZE pinned blocks leaves write_log
  no buffer for the log block, and commit panics in bget. Commit gets to its end
  exactly when fewer blocks are logged or being read by others than there are
  buffers (`LogLayer.Log.Commit`, `BufferCache.CommitFindsBuffer`), and three
  operations within their MAXOPBLOCKS reach the panic on any log area of LOGSIZE + 1
  blocks or more (`LogLayer.FullTransactionPanics`). mkfs makes a log area of LOGSIZE
  blocks (mkfs/mkfs.c:25), where at most 29 blocks are logged and a reader is needed
  to take the last buffer.
- writei lets a buffer go unlogged when a copy fails half way. The cache then
  reads back the old contents once the buffer has been recycled
  (`BufferCache.UnsettledIsForgotten`); a step keeps cache and store in agreement
  exactly when it is not such a release (`BufferCache.StepKeepsValidExactlyWhen`).
- A page can be on the free list and still mapped: freeproc frees the trapframe
  before it unmaps it (kernel/proc.c:159-163; the run is `PageRuns.FreedWhileMapped`).
  A step keeps mapped pages in use exactly when it frees no page that stays mapped
  and maps none that is free (`PageRuns.InUseKeptExactlyWhen`). What holds in every
  run is that a page user code can reach belongs to that mapping alone
  (`PageRuns.RunsAreIsolated`, `PageRuns.UserPagesArePrivate`).
- firstk ends only for requests up to 2^63 bytes (`Buddy.FirstkEndsExactlyWhen`).
- bd_initfree visits a pair twice, and pushes its free half twice, when both
  boundaries fall into one pair at some level; its byte count is right exactly
  when no level has this (`BuddyInit.CountIsExactlyWhen`). With bd_init's own layout
  it happens exactly on 224 to 255 and 320 to 511 bytes of memory, and bd_init then
  panics (`BuddyInit.LayoutPanicsExactlyWhen`, `BuddyInit.Setup.BdInit`; 320 bytes
  worked out in `BuddyInit.PairVisitedTwice`).
- bd_initfree reads a bit past the end of an alloc array exactly when the memory
  is a power of two of leaves (`BuddyInit.ReadsStayInsideExactlyWhen`).
- pipewrite's early return for a killed process skips its wakeup; a step loses a
  wakeup exactly when it is that return with unannounced bytes and a reader asleep
  (`Pipe.StepKeepsInvExactlyWhen`, a run in `Pipe.KilledWriterStrandsReader`).
- The comment on firstk says 2^k; the code compares with 2^k leaves of 16 bytes,
  and the model follows the code.

## Model

| member | source | states |
|---|---|---|
| RedoLog.HeaderRoundTrip | xv6-os/kernel/log.c:86-114 | reading a header block back gives exactly the block numbers written into it, for any old contents of the block |
| RedoLog.CommitDiskStep | xv6-os/kernel/log.c:178-203 | the disk after k block writes of a commit, given in closed form block by block, becomes the one for k+1 by exactly the write commit makes next |
| RedoLog.CommitDiskMeans | xv6-os/kernel/log.c:178-203 | what every intermediate disk of a commit recovers to: the old contents up to the header write with non-zero n, the new ones from it on |
| RedoLog.CommitIsAtomic | xv6-os/kernel/log.c:68-123 | after a crash at any block write of a commit, recovery leaves all home blocks old or all new, and which one is decided by the header write alone |
| RedoLog.CommitReaches | xv6-os/kernel/log.c:178-203 | running the first k writes of commit really leads to the closed-form disk |
| RedoLog.RecoverDiskMeans | xv6-os/kernel/log.c:116-123 | every intermediate disk of a recovery recovers to the same home blocks as the disk it started from |
| RedoLog.RecoverReachesFinal | xv6-os/kernel/log.c:116-123 | a completed recovery leaves each home block with its logged contents if the header names it, its own otherwise, and an empty log |
| RedoLog.RecoveryIsRepeatable | xv6-os/kernel/log.c:116-123 | any number of recoveries cut short at any write, and then a complete one, end where one complete recovery ends |
| RedoLog.CommitThenCrashes | xv6-os/kernel/log.c:68-203 | a crash at any write of a commit, any number of crashes inside recovery and then a complete recovery leave all home blocks old or all new, decided by the header write |
| LogSpace.CommitExcludesOps | xv6-os/kernel/log.c:126-175 | in every run, a commit is under way only with no operation outstanding, and none begins meanwhile |
| LogSpace.FittingRunsAreSafe | xv6-os/kernel/log.c:126-142 | no interleaving of operations within a fitting budget reaches the panic of log_write |
| LogSpace.OverrunPanics | xv6-os/kernel/log.c:214-235 | when the budget does not fit there is a run that panics |
| LogSpace.PanicFreeExactlyWhenFits | xv6-os/kernel/log.c:214-235 | a budget of blocks or of calls per operation keeps every run from panicking if and only if its peak stays below the two limits of the guard |
| LogSpace.PanicReadings | xv6-os/kernel/log.c:220-221 | the exact log sizes for ten calls, ten distinct blocks and nine distinct blocks per operation |
| LogSpace.ScriptedRunsAreSafe | xv6-os/kernel/log.c:126-235 | operations that each keep to a set of at most so many blocks, logging them in any order and number, never panic when that budget fits |
| LogProtocol.StepKeepsInv | xv6-os/kernel/log.c:116-235 | every step, crash and recovery steps included, keeps the disk tied to the history of logged writes |
| LogProtocol.CrashConsistency | xv6-os/kernel/log.c:116-203 | whenever the system is up after any number of crashes, the home blocks are the replay of a prefix of the logged writes that contains each operation wholly or not at all |
| LogProtocol.DurableOnlyGrows | xv6-os/kernel/log.c:193-203 | over every run the durable prefix never shrinks, whatever crashes happen |
| LogProtocol.EndedMeansDurable | xv6-os/kernel/log.c:146-175 | once no commit is under way and no operation outstanding, everything logged is durable |
| BufferCache.OneBufferPerBlock | xv6-os/kernel/bio.c:58-89 | no two buffers hold the same block |
| BufferCache.PinnedIsNotRecycled | xv6-os/kernel/bio.c:76-87 | a buffer that is referenced or pinned is not the one bget recycles |
| BufferCache.VictimIsOldest | xv6-os/kernel/bio.c:58-137 | in every run the buffer bget recycles is one without references whose last release lies furthest back |
| BufferCache.StepKeepsValidExactlyWhen | xv6-os/kernel/bio.c:58-151 | an operation keeps the LRU list a permutation of the buffers, the counts equal to holders plus pins and valid buffers equal to the store if and only if it is not the release of a buffer changed but neither logged nor written |
| BufferCache.UnsettledIsForgotten | xv6-os/kernel/fs.c:522-525 | after such a release and a recycling of the buffer the block reads as its old contents |
| BufferCache.CacheAgreesWithStore | xv6-os/kernel/bio.c:92-103 | over every run, bread returns the contents last put into the block or, if none, those on disk at boot |
| BufferCache.CommitFindsBuffer | xv6-os/kernel/log.c:178-191 | with the logged blocks pinned and other processes reading some more, write_log's bread of a log block finds a buffer if and only if fewer than NBUF are pinned or being read |
| BufferCache.Cache.constructor | xv6-os/kernel/bio.c:36-53 | binit: all buffers on the list, none referenced |
| BufferCache.Cache.Lookup | xv6-os/kernel/bio.c:65-73 | the scan from the front finds the buffer of a block exactly when there is one |
| BufferCache.Cache.FindUnused | xv6-os/kernel/bio.c:75-88 | the scan from the back finds the least recently used buffer without references, or none when all are in use |
| BufferCache.Cache.Claim | xv6-os/kernel/bio.c:58-89 | bget up to the sleep lock: the cached buffer, or the recycled one, or the panic exactly when all buffers are in use |
| BufferCache.Cache.LockAndFill | xv6-os/kernel/bio.c:92-103 | the buffer handed out holds the store's contents of its block |
| BufferCache.Cache.Bwrite | xv6-os/kernel/bio.c:106-112 | the disk block becomes the buffer's contents and nothing else changes |
| BufferCache.Cache.Unref | xv6-os/kernel/bio.c:124-136 | one reference less, and to the front of the list when it was the last |
| BufferCache.Cache.Bpin | xv6-os/kernel/bio.c:139-144 | one pin more on that buffer |
| BufferCache.Cache.Bunpin | xv6-os/kernel/bio.c:146-151 | one pin less on that buffer |
| BufferCache.Cache.Bread | xv6-os/kernel/bio.c:92-103 | a buffer holding the last contents logged or on disk, a wait exactly when another process has the buffer locked, or the panic exactly when no buffer is left; holders, pins and disk afterwards |
| BufferCache.Cache.Brelse | xv6-os/kernel/bio.c:116-137 | the buffer is given up, and the cache stays consistent exactly when what was changed is logged or written |
| LogLayer.Log.WriteLog | xv6-os/kernel/log.c:178-191 | the cached contents of each logged block are on disk in the log area, written in order, and nothing else changed; bget panics exactly when no buffer is left beside the pinned ones and those other processes are reading |
| LogLayer.Log.FillHeader | xv6-os/kernel/log.c:106-111 | the header buffer holds n and the block numbers and keeps its other words |
| LogLayer.Log.WriteHead | xv6-os/kernel/log.c:102-114 | exactly one block write, of the header, or the panic of bget in exactly its case, readers counted in |
| LogLayer.Log.ReadHead | xv6-os/kernel/log.c:86-97 | the in-memory header becomes the one on disk |
| LogLayer.Log.InstallTrans | xv6-os/kernel/log.c:68-83 | each logged block is copied home in order; at commit exactly the pins of the logged blocks are dropped; bget panics exactly with too few buffers beside the readers', which at recovery is fewer than two |
| LogLayer.Log.Commit | xv6-os/kernel/log.c:193-203 | beside any readers of other blocks it completes exactly when fewer blocks are logged or read than there are buffers; then the block writes are those the crash proofs are about, every home block on disk has the contents it had in memory, the log is empty and no block is pinned; otherwise nothing was written |
| LogLayer.Log.RecoverFromLog | xv6-os/kernel/log.c:116-123 | the block writes are those the recovery proofs are about, and how many buffers it takes beside the readers' |
| LogLayer.Log.BeginOp | xv6-os/kernel/log.c:126-142 | an operation is admitted exactly when no commit is under way and the reserved space still fits |
| LogLayer.Log.LogWrite | xv6-os/kernel/log.c:214-235 | the two panics exactly under their conditions; otherwise the block is in the header once and pinned once |
| LogLayer.Log.Update | xv6-os/kernel/fs.c:50-59 | a change to a block through bread, log_write and brelse is what the block reads as, is not on disk, and is in the header |
| LogLayer.Log.EndOp | xv6-os/kernel/log.c:146-175 | the last operation out puts on disk, for every home block, what it read as before, any other only leaves; the two panics exactly in their cases, readers counted in |
| LogLayer.FullTransactionPanics | xv6-os/kernel/log.c:146-203 | with LOGSIZE buffers, three admitted operations that log LOGSIZE different blocks end in bget's panic, whatever the blocks and contents |
| LogLayer.CommitParts | xv6-os/kernel/log.c:193-203 | the loops of commit, put together, are the block writes of the crash model |
| LogLayer.CommitSettles | xv6-os/kernel/log.c:193-203 | after a complete commit memory and disk are the same, home blocks have the contents they had in memory, and the log on disk is empty |
| LogLayer.RecoverParts | xv6-os/kernel/log.c:116-123 | the loops of recovery, put together, are the block writes of the recovery model |
| Buddy.MallocCorrect | xv6-os/kernel/buddy.c:118-147 | a successful allocation hands out one block of the requested level that was not in use and lies inside a block that was free, keeps free lists, alloc bits and split bits in agreement, and leaves all other live blocks |
| Buddy.MallocTakesSmallest | xv6-os/kernel/buddy.c:118-147 | the allocation is cut from a block of the smallest level that has a free one and is large enough, the one freed last, and starts at its address |
| Buddy.FreeCorrect | xv6-os/kernel/buddy.c:161-185 | freeing keeps the three views in agreement and takes exactly that block out of the live ones |
| Buddy.FreeUndoesMalloc | xv6-os/kernel/buddy.c:118-185 | freeing what was just allocated restores bits and free lists exactly, list order included |
| Buddy.Canonical | xv6-os/kernel/buddy.c:118-185 | two states with the same live and reserved blocks have the same bits and the same sets of free blocks |
| Buddy.RunRestores | xv6-os/kernel/buddy.c:118-185 | any run that ends with the live blocks it started with ends with the same bits and free sets |
| Buddy.Tiling | xv6-os/kernel/buddy.c:118-185 | every leaf of the heap is in exactly one free block, live block or reserved leaf |
| Buddy.TopIsSplit | xv6-os/kernel/buddy.c:150-157 | the largest block is always split, because something is reserved |
| Buddy.SplitAround | xv6-os/kernel/buddy.c:150-157 | around a live block the split bits are clear at its level and below and set above |
| Buddy.BlkIndexIsQuotient | xv6-os/kernel/buddy.c:106-109 | the index obtained by repeated halving is the code's quotient |
| Buddy.AddrRoundTrip | xv6-os/kernel/buddy.c:112-115 | the index of a block's address is the block |
| Buddy.FirstkEndsExactlyWhen | xv6-os/kernel/buddy.c:94-103 | the 64-bit doubling loop reaches n if and only if n is at most 2^63, and then the level is the first that is large enough |
| Buddy.Allocator.Firstk | xv6-os/kernel/buddy.c:94-103 | the smallest level whose blocks hold n bytes |
| Buddy.Allocator.BdMalloc | xv6-os/kernel/buddy.c:118-147 | computes the allocation the lemmas are about |
| Buddy.Allocator.Size | xv6-os/kernel/buddy.c:150-157 | the level of the live block at an address, without reading the split bits of level nsizes |
| Buddy.Allocator.BdFree | xv6-os/kernel/buddy.c:161-185 | computes the deallocation the lemmas are about, whatever the level |
| BuddyInit.LeftIsBlkIndexNext | xv6-os/kernel/buddy.c:188-192 | the rounded-up index, by repeated halving, is the code's |
| BuddyInit.RightIsBlkIndex | xv6-os/kernel/buddy.c:106-109 | the rounded-down index likewise |
| BuddyInit.FreeBlocksAre | xv6-os/kernel/buddy.c:239-253 | after marking, a block is free exactly when it is the unmarked half of a pair at one of the two boundaries |
| BuddyInit.InitEstablishesInv | xv6-os/kernel/buddy.c:242-253 | when no pair is visited twice, bd_init ends in a state in which the three views agree |
| BuddyInit.CountIsExactlyWhen | xv6-os/kernel/buddy.c:242-253 | the returned sum exceeds heap minus meta minus unavailable by exactly the blocks pushed twice, so it is right if and only if no level has both boundaries in one pair |
| BuddyInit.PairVisitedTwice | xv6-os/kernel/buddy.c:242-253 | the layout for 320 bytes: one block is pushed twice, and 176 bytes are counted where 112 are free |
| BuddyInit.QuarterIsSafe | xv6-os/kernel/buddy.c:242-253 | with the data in the first quarter and the tail after the midpoint no pair is visited twice |
| BuddyInit.MetaFitsQuarter | xv6-os/kernel/buddy.c:292-314 | the allocator's own data fits the first quarter from 2^6 leaves on |
| BuddyInit.DataFitsExactlyWhen | xv6-os/kernel/buddy.c:276-314 | the memory can hold the allocator's own data if and only if it has 176 bytes |
| BuddyInit.LayoutPanicsExactlyWhen | xv6-os/kernel/buddy.c:276-331 | with bd_init's layout some pair is visited twice if and only if the memory has 224 to 255 or 320 to 511 bytes |
| BuddyInit.InitSucceedsExactlyWhen | xv6-os/kernel/buddy.c:316-331 | the final comparison of bytes passes if and only if no pair was visited twice, and then the three views agree |
| BuddyInit.ReadsStayInsideExactlyWhen | xv6-os/kernel/buddy.c:225-253 | the bits bd_initfree reads are inside their arrays if and only if the memory is less than the power of two the arrays are sized for |
| BuddyInit.Setup.BdMark | xv6-os/kernel/buddy.c:204-221 | marks, at every level, exactly the blocks that overlap the range |
| BuddyInit.Setup.BdInitfreePair | xv6-os/kernel/buddy.c:225-237 | pushes the free half of a pair with exactly one half marked, and nothing else |
| BuddyInit.Setup.BdInitfree | xv6-os/kernel/buddy.c:242-253 | leaves on each level's list exactly the free halves found at the boundaries, and returns their bytes |
| BuddyInit.Setup.Log2 | xv6-os/kernel/buddy.c:194-201 | the power of two at or below n |
| BuddyInit.Setup.BdInit | xv6-os/kernel/buddy.c:276-333 | on every size that holds its data and is no power of two of leaves, the final check panics exactly for 224 to 255 and 320 to 511 bytes; otherwise the allocator starts with its views in agreement |
| List.RingIsUnique | xv6-os/kernel/list.c:9-19 | the pointers determine the list |
| List.PushFirst | xv6-os/kernel/list.c:41-49 | pushing puts the node first and keeps both directions consistent |
| List.RemoveMiddle | xv6-os/kernel/list.c:26-30 | removing takes out that node wherever it stands |
| List.OtherListsKept | xv6-os/kernel/list.c:26-49 | neither touches any other list |
| List.Memory.Init | xv6-os/kernel/list.c:14-19 | an empty list |
| List.Memory.Empty | xv6-os/kernel/list.c:21-24 | true exactly for the empty list |
| List.Memory.Pop | xv6-os/kernel/list.c:32-39 | the first node, or the panic exactly when there is none |
| List.Memory.Push | xv6-os/kernel/list.c:41-49 | the four pointer writes |
| BuddyLists.MallocStored | xv6-os/kernel/buddy.c:118-147 | when the free lists are linked lists of addresses inside the free blocks, lst_pop and the lst_push calls of bd_malloc lead to lists that again store the model's free lists, order included |
| BuddyLists.FreeStored | xv6-os/kernel/buddy.c:161-185 | lst_remove of each free buddy and the final lst_push do the same for bd_free |
| BuddyLists.InitStored | xv6-os/kernel/buddy.c:242-331 | lst_init of every head in bd_sizes and the lst_push calls of bd_initfree leave memory storing the lists the allocator starts with, when no pair is visited twice |
| PageTable.TreeIsFlat | xv6-os/kernel/vm.c:73-103 | following the three levels of tables as the hardware does gives exactly the flat map's entry |
| PageTable.TablesUnshared | xv6-os/kernel/vm.c:85-103 | no page holds two tables, and none is a table and free |
| Sv39.PteRoundTrip | xv6-os/kernel/riscv.h:353-364 | packing a page address and flags into an entry and taking them out again |
| Sv39.IndicesDetermineAddress | xv6-os/kernel/riscv.h:366-378 | the three indices and the offset determine the address |
| Vm.Memory.constructor | xv6-os/kernel/kalloc.c:26-40 | freerange puts every page of the range on the free list once |
| Vm.Memory.Kalloc | xv6-os/kernel/kalloc.c:68-82 | a page that was free, or none exactly when none is |
| Vm.Memory.Kfree | xv6-os/kernel/kalloc.c:46-63 | the page is free again and first in line |
| Vm.Memory.Walk | xv6-os/kernel/vm.c:85-103 | the place of the entry for a page; the leaf map never changes and only table pages of that address space are taken, each for a table on the way to the page; null with alloc only when memory has run out; the panic exactly from MAXVA on |
| Vm.Memory.WalkAddr | xv6-os/kernel/vm.c:108-126 | the page mapped for the user, if there is one, and nothing changes |
| Vm.Memory.MapPages | xv6-os/kernel/vm.c:143-172 | exactly the requested pages are mapped; or it fails, with a prefix mapped and no page free, only when fewer pages were free than tables were lacking for the range; or it panics, only for a size of zero or at the first page already mapped or out of range |
| Vm.Memory.UvmUnmap | xv6-os/kernel/vm.c:177-199 | exactly those leaves go, and the pages they owned; the panics exactly when one is not mapped |
| Vm.Memory.UvmCreate | xv6-os/kernel/vm.c:203-212 | an empty address space |
| Vm.Memory.UvmAlloc | xv6-os/kernel/vm.c:232-256 | on success fresh distinct zeroed pages with the right flags in the range and nothing else; it fails if and only if fewer pages are free than new pages and lacking tables together, and then the leaf map is as before and every page but new table pages is given back; the panic only when a page of the range was mapped or out of range |
| Vm.Memory.UvmDealloc | xv6-os/kernel/vm.c:262-274 | the pages between the two sizes go back |
| Vm.Memory.FreeWalk | xv6-os/kernel/vm.c:278-295 | frees exactly the tables below; the panic only when a leaf is left |
| Vm.Memory.UvmFree | xv6-os/kernel/vm.c:298-304 | no panic if and only if exactly the first pages are mapped, and then every page and table of the address space is free again |
| Vm.Memory.UvmCopy | xv6-os/kernel/vm.c:312-340 | on success equal bytes and flags on fresh distinct pages; it fails if and only if fewer pages are free than pages to copy and lacking tables together, and then the leaf map is as before; the panic only when a source page is missing or a target page is there |
| Vm.Memory.UvmFirst | xv6-os/kernel/vm.c:217-228 | the panic or fault exactly for a program of a page or more, without a free page or with page 0 already mapped; otherwise one page with the program's bytes and zeros is mapped at 0 with all permissions if and only if memory suffices for it and its tables, and nothing is mapped if it does not |
| Vm.Memory.UvmClear | xv6-os/kernel/vm.c:344-353 | that entry loses PTE_U and nothing else changes; the panic exactly without an entry |
| Vm.Memory.CopyOut | xv6-os/kernel/vm.c:358-383 | what every user address of every address space reads afterwards: the bytes copied there, all else as before; it stops at the first page the user may not write |
| Vm.Memory.CopyIn | xv6-os/kernel/vm.c:388-409 | the bytes at the user addresses, all of them or those before the first page that is not the user's |
| Vm.Memory.CopyInStr | xv6-os/kernel/vm.c:415-451 | the string up to and with its first zero; an error exactly when there is none in max bytes or before the first page that is not the user's |
| Vm.TearDownUndoesPopulate | xv6-os/kernel/vm.c:232-304 | tearing an address space down gives back all that populating it took, tables included |
| PageRuns.ActKeepsInv | xv6-os/kernel/vm.c:85-353 | every step of the page code keeps tables, flat map and owners in agreement and loses no page |
| PageRuns.ActKeepsIsolated | xv6-os/kernel/vm.c:143-353 | no step lets user code reach a managed page that does not belong to that mapping |
| PageRuns.RunsAreIsolated | xv6-os/kernel/vm.c:143-353 | so in every run from kinit on, with the agreement of tables, flat map and owners concluded, and no page lost or gained |
| PageRuns.UserPagesArePrivate | xv6-os/kernel/vm.c:143-353 | a page user code can reach is mapped for the user nowhere else and is neither free nor a table |
| PageRuns.InUseKeptExactlyWhen | xv6-os/kernel/vm.c:143-353 | from a state in which no mapped page is free, a step keeps it so if and only if it frees no page that stays mapped and maps none that is free |
| PageRuns.FreedWhileMapped | xv6-os/kernel/proc.c:156-163 | a run from kinit on, as freeproc makes it, that ends with a page both free and mapped |
| InodeBlocks.BlocksAreOwnedOnce | xv6-os/kernel/fs.c:65-105 | every block in use is in exactly one slot of one inode, and every block number in a slot is in use |
| InodeBlocks.EmptyHasInv | xv6-os/mkfs/mkfs.c:93-111 | a file system of zeroed blocks with only the metadata blocks in use satisfies the invariant |
| InodeBlocks.AllocKeepsInv | xv6-os/kernel/fs.c:382-421 | storing a fresh block in an empty slot keeps that |
| InodeBlocks.AllocSameFiles | xv6-os/kernel/fs.c:382-421 | and changes no byte of any file |
| InodeBlocks.AllocBalanced | xv6-os/kernel/fs.c:382-421 | every block bmap allocates is one that the write to that block of the file needed: free blocks minus blocks still needed stays the same |
| InodeBlocks.PatchBytes | xv6-os/kernel/fs.c:520-527 | writing into the block of one file changes that file there and no file anywhere else |
| InodeBlocks.WrittenContents | xv6-os/kernel/fs.c:505-539 | in terms of whole contents: one byte sequence with [off, off+n) replaced, all other files as before |
| InodeBlocks.TruncKeepsInv | xv6-os/kernel/fs.c:425-453 | freeing a file's blocks keeps ownership right and touches no other file |
| InodeBlocks.FileSystem.constructor | xv6-os/mkfs/mkfs.c:93-111 | an empty file system, in a state that satisfies the invariant |
| InodeBlocks.FileSystem.Balloc | xv6-os/kernel/fs.c:65-88 | a free block, marked and zeroed, or 0 exactly when none is free |
| InodeBlocks.FileSystem.Bfree | xv6-os/kernel/fs.c:91-105 | the bit cleared, the panic exactly when it was clear |
| InodeBlocks.FileSystem.Bmap | xv6-os/kernel/fs.c:382-421 | the block's number, allocated if need be; no byte changes and ownership holds, also when the disk fills half way |
| InodeBlocks.FileSystem.Itrunc | xv6-os/kernel/fs.c:425-453 | frees exactly the file's blocks, and bfree does not panic |
| InodeBlocks.FileSystem.Readi | xv6-os/kernel/fs.c:471-496 | the bytes of the contents at the offset, cut at the size; 0 and -1 in their cases |
| InodeBlocks.FileSystem.Writei | xv6-os/kernel/fs.c:505-539 | exactly the first tot bytes are written at the offset; -1 exactly in its cases; with a readable source all bytes are written exactly when the blocks it lacks, the indirect one included, are no more than those free before; every block that changed was logged, and how many at most |
| InodeBlocks.FileSystem.FileWrite | xv6-os/kernel/file.c:148-175 | the chunks add up to one write; -1 exactly when the bytes do not fit the file, cannot all be read, or need more blocks than were free before the call; each chunk logs every block it changes, and no more than seven when the bitmap fits one block |
| InodeBlocks.FileWritesNeverPanic | xv6-os/kernel/file.c:148-175 | however the chunks of any filewrite calls interleave, log_write does not panic from 26 log blocks on, and with seven blocks per operation no smaller area is safe |
| FileCrash.UnloggedIsSame | xv6-os/kernel/fs.c:505-539 | a block that a chunk did not log, be it data, block numbers, bitmap or inodes, holds what it held |
| FileCrash.MkfsDiskHolds | xv6-os/mkfs/mkfs.c:96-115 | a disk with any boot block and superblock, the other blocks as any encoding writes them down, holds the file system |
| FileCrash.ChunkReplays | xv6-os/kernel/file.c:148-175 | replaying the log_write calls of a chunk turns a disk holding the file system before it into one holding the file system after it |
| FileCrash.FilesSurviveWhole | xv6-os/kernel/file.c:148-175 | wherever the machine stops, between two log_write calls of a chunk too, and however often recovery is cut short, recovery leaves the disk holding the file system as it was after the first k chunks, for some k |
| FileRuns.SectionKeepsInv | xv6-os/kernel/fs.c:382-421 | every section of the writers, in any interleaving, keeps the files with their linked blocks a whole file system and the blocks taken but not yet linked free, zeroed and one writer's |
| FileRuns.SectionBytes | xv6-os/kernel/fs.c:505-539 | the copy in writei changes exactly those bytes of the file its operation has locked, iupdate its size, and no other section any byte or size of any file |
| FileRuns.SectionCovered | xv6-os/kernel/fs.c:50-88 | a section changes no block in the buffers but the one it passes to log_write |
| FileRuns.QuietIsWhole | xv6-os/kernel/log.c:146-175 | with no operation under way the buffers hold a whole file system |
| FileRuns.StepKeepsWorld | xv6-os/kernel/log.c:116-235 | every section, every step of the log, every crash and every recovery step keeps buffers, history and the state of the last commit tied together |
| FileRuns.FilesSurviveTogether | xv6-os/kernel/file.c:148-175 | with any number of writers, sections in any order, and the machine stopping at any point any number of times, recovery leaves the disk holding a whole file system, the one the buffers held at the last commit, when no operation was under way; once all have ended it is what the buffers hold |
| SleepLock.StepKeepsInv | xv6-os/kernel/proc.c:444-612 | every step of processes and schedulers keeps the invariant on locks, sleepers and CPUs |
| SleepLock.NoLostWakeup | xv6-os/kernel/sleeplock.c:21-41 | in every interleaving, when a sleep lock is unlocked and its spinlock free, nobody sleeps on it or is on the way to |
| SleepLock.MutualExclusion | xv6-os/kernel/sleeplock.c:21-41 | at most one process holds a sleep lock, and the lock says which |
| SleepLock.AcquireReturnsOwner | xv6-os/kernel/sleeplock.c:21-31 | in every run, whoever calls acquiresleep and has returned owns the lock, which is locked with its pid |
| SleepLock.ReleaseReturnsFree | xv6-os/kernel/sleeplock.c:33-41 | in every run, whoever calls releasesleep and has returned owns the lock no more |
| SleepLock.SectionsExclude | xv6-os/kernel/sleeplock.c:21-41 | in every run, two processes are never both between a return from acquiresleep and the next call of releasesleep for one lock; sections are given by calls and returns alone |
| SleepLock.SleepEndsByWakeup | xv6-os/kernel/proc.c:548-616 | a sleeping process becomes runnable only by the turn of wakeup that looks at it and finds its channel, or of kill that finds it |
| SleepLock.KillWakes | xv6-os/kernel/proc.c:598-616 | in every run, between the call and the return of kill its target was at some point not asleep |
| SleepLock.OneCpuPerProcess | xv6-os/kernel/proc.c:444-482 | no process runs on two CPUs |
| SleepLock.SchedNeverPanics | xv6-os/kernel/proc.c:490-508 | at swtch the process holds its own lock and its CPU no other, and its state has changed |
| ExitWait.StepKeepsInv | xv6-os/kernel/proc.c:280-435 | every step of fork, exit, wait, reparent and kill keeps the invariant on parents, zombies and sleepers |
| ExitWait.NoSleepBesideZombie | xv6-os/kernel/proc.c:330-435 | whenever wait_lock is free, no parent sleeps in wait with a zombie child, children handed to init included |
| ExitWait.NoOrphans | xv6-os/kernel/proc.c:330-341 | no process has a dead or freed parent |
| ExitWait.ParentChange | xv6-os/kernel/proc.c:280-420 | a parent changes only from none to the forking process, from an exiting process to init, or from the waiting process to none |
| ExitWait.EverybodyHasParent | xv6-os/kernel/proc.c:280-384 | in every run every process but init has a parent, and it is alive |
| ExitWait.ForkMakesChild | xv6-os/kernel/proc.c:280-326 | when a fork that found a slot returns, the slot is a runnable child of the caller with the next pid |
| ExitWait.WaitReturnsWhen | xv6-os/kernel/proc.c:391-435 | wait returns only by reaping a zombie child, when the status cannot be copied out, when the caller was killed, or when it has no children at all |
| ExitWait.WaitSleepsWhen | xv6-os/kernel/proc.c:391-435 | wait goes to sleep only with a child, none of them a zombie |
| ExitWait.WaitSleepEndsBy | xv6-os/kernel/proc.c:330-384 | a sleep in wait ends exactly by kill, by the wakeup of an exiting child, or for init by that of reparent |
| ExitWait.ReapedOnce | xv6-os/kernel/proc.c:402-420 | each exited process is reaped at most once |
| ExitWait.ReapedAsExited | xv6-os/kernel/proc.c:347-420 | in every run, the status wait reports for a pid is the argument of the exit call that process made |
| ExitWait.ReapedIsOffCpu | xv6-os/kernel/proc.c:403-417 | a slot is freed only when its process has left the CPU for good |
| Pipe.TestsAreExact | xv6-os/kernel/pipe.c:86-112 | the empty and full tests on wrapped 32-bit counters are exact |
| Pipe.RunIsFifo | xv6-os/kernel/pipe.c:76-130 | in every run, kills of sleeping and running processes included, the bytes consumed are a prefix of the bytes accepted, at most PIPESIZE apart |
| Pipe.WriteSendsPrefix | xv6-os/kernel/pipe.c:76-103 | in every run, at every moment of a pipewrite and at its return the bytes it has put into the pipe are the first ones of its buffer; it returns their number, all of them unless a copy failed, or -1 exactly when the reader is gone or the writer killed |
| Pipe.ReadTakesAll | xv6-os/kernel/pipe.c:105-130 | in every run, a piperead takes the next bytes and returns their number: as many as asked for unless the pipe is empty or a copy failed, or -1 only when killed while waiting |
| Pipe.ZeroMeansEnd | xv6-os/kernel/pipe.c:105-130 | a read of more than nothing that returns 0 with no failed copy found the write end closed and every accepted byte consumed |
| Pipe.ClosedStays | xv6-os/kernel/pipe.c:58-74 | a closed end stays closed, and nothing is accepted after the read end is |
| Pipe.StepKeepsInvExactlyWhen | xv6-os/kernel/pipe.c:83-91 | a step keeps every sleeper accounted for if and only if it is not the early return of a killed writer with bytes to announce and a reader asleep |
| Pipe.SleepersHaveReason | xv6-os/kernel/pipe.c:58-130 | without that return, whenever the lock is free a sleeping reader has nothing to read with the write end open, a sleeping writer no room with the read end open |
| Pipe.KilledWriterStrandsReader | xv6-os/kernel/pipe.c:83-87 | a run in which that return leaves a reader asleep beside a byte |
| Virtio.Descriptors.AllocDesc | xv6-os/kernel/virtio_disk.c:156-166 | the first free descriptor, marked, or none |
| Virtio.Descriptors.FreeDesc | xv6-os/kernel/virtio_disk.c:169-182 | the descriptor free and cleared, the panics exactly in their cases |
| Virtio.Descriptors.Alloc3Desc | xv6-os/kernel/virtio_disk.c:201-213 | three distinct free descriptors, or everything as it was when there are not three |
| Virtio.Descriptors.FreeChain | xv6-os/kernel/virtio_disk.c:185-197 | following the links frees exactly the three descriptors of the chain, without a panic |
| Virtio.StepKeepsInv | xv6-os/kernel/virtio_disk.c:215-327 | every step of driver, device and handler keeps descriptors, rings and requests in agreement |
| Virtio.DescriptorsArePartitioned | xv6-os/kernel/virtio_disk.c:155-213 | in every run each descriptor is free or in exactly one chain of three |
| Virtio.UnreadEntriesSurvive | xv6-os/kernel/virtio_disk.c:271-277 | no avail entry is overwritten before the device has read it, across 16-bit wrap-around |
| Virtio.ReturnsAfterOwnCompletion | xv6-os/kernel/virtio_disk.c:283-289 | virtio_disk_rw returns only after the device completed that very request and the handler saw it |
| Virtio.CompletedOnce | xv6-os/kernel/virtio_disk.c:312-324 | no request is completed twice and only posted ones are |
| Virtio.HandlerWakesTheRightOne | xv6-os/kernel/virtio_disk.c:294-327 | the handler finds status 0 and wakes the request the device completed next |
| Virtio.WaitersHaveReason | xv6-os/kernel/virtio_disk.c:226-233 | whoever sleeps for descriptors does so only while fewer than three are free |
| Umalloc.InsertGains | xv6-os/user/umalloc.c:33-43 | after free's linking the list is one cycle in order of address without overlapping or touching blocks, with exactly the freed units added |
| Umalloc.Unlink | xv6-os/user/umalloc.c:76-77 | taking an exact fit off the list |
| Umalloc.Carve | xv6-os/user/umalloc.c:78-82 | cutting the tail off a larger block |
| Umalloc.UnitsAreOnce | xv6-os/user/umalloc.c:24-90 | every unit from sbrk is free or in exactly one block handed out |
| Umalloc.RunIsInOneBlock | xv6-os/user/umalloc.c:74-89 | adjacent free units are in one block, so a new chunk satisfies the request that asked for it |
| Umalloc.RunIsBlock | xv6-os/user/umalloc.c:24-90 | n adjacent units from sbrk are unused if and only if some block on the list has n units |
| Umalloc.Allocator.FindPlace | xv6-os/user/umalloc.c:29-32 | the search of free ends, at the block the freed one goes after |
| Umalloc.Allocator.FreeBlock | xv6-os/user/umalloc.c:24-44 | exactly the freed block goes back |
| Umalloc.Allocator.Morecore | xv6-os/user/umalloc.c:46-61 | at least 4096 units from sbrk are on the list, or nothing changed |
| Umalloc.Allocator.Scan | xv6-os/user/umalloc.c:74-89 | once round the list: the first block that is large enough, or there is none |
| Umalloc.Allocator.Malloc | xv6-os/user/umalloc.c:63-90 | a new block of the requested units; sbrk is asked, once, if and only if no run of that many adjacent units from sbrk is unused; none if and only if it is asked and gives nothing |
| ShellGrammar.ParseDerived | xv6-os/user/sh.c:328-447 | every line whose tokens have a derivation in the grammar is accepted to its end, as the command the derivation stands for |
| ShellGrammar.AcceptsLanguage | xv6-os/user/sh.c:328-447 | a line is accepted if and only if its tokens have a derivation with at most nine words to a simple command |
| ShellGrammar.Unambiguous | xv6-os/user/sh.c:345-447 | all derivations of a line stand for the same command |
| ShellGrammar.ParsePrint | xv6-os/user/sh.c:328-447 | every command tree within the limits is parsed back from its print, which leaves pipelines, lists, `&` and the redirections of simple commands bare and puts parentheses only around what the grammar cannot take bare |
| ShellGrammar.Parsecmd | xv6-os/user/sh.c:328-343 | a panic, with the line as it was, if and only if the line has no derivation; otherwise the command its derivations stand for, each word of it ended by a zero in the line |
| ShellGrammar.Lexed | xv6-os/user/sh.c:266-321 | peek and gettoken see the first token of what is left |
| ShellGrammar.WordsRead | xv6-os/user/sh.c:416-447 | words and redirections in any order: all words in order, and all redirections around them in order |
| Shell.LineIsTokens | xv6-os/user/sh.c:345-447 | every word the parser stores is a whole token of the line |
| Shell.TerminateAt | xv6-os/user/sh.c:450-494 | nulterminate writes a zero after each stored word and nowhere else |
| Shell.WordsAreTerminated | xv6-os/user/sh.c:328-494 | after parsecmd every stored word reads back as exactly its token |
| Shell.GetToken | xv6-os/user/sh.c:266-309 | positions never go back, every token but the end consumes something, and a word token is a maximal run of word characters |
| Shell.Parser.Peek | xv6-os/user/sh.c:311-321 | the next character that is no space |
| Shell.Parser.Gettoken | xv6-os/user/sh.c:266-309 | the token and the position after it |
| Shell.Parser.Parseredirs | xv6-os/user/sh.c:375-398 | all redirections that follow, or the panic |
| Shell.Parser.Parseexec | xv6-os/user/sh.c:416-447 | the simple command or block that ParseExec reads, which ShellGrammar shows to be the grammar's; ends on every input |
| Shell.Parser.Parseblock | xv6-os/user/sh.c:400-414 | the grammar's block; ends on every input |
| Shell.Parser.Parsepipe | xv6-os/user/sh.c:362-373 | the grammar's pipeline; ends on every input |
| Shell.Parser.Parseline | xv6-os/user/sh.c:345-360 | the grammar's line; ends on every input |
| Shell.NulTerminate | xv6-os/user/sh.c:450-494 | overwrites the buffer in place as specified |
| Grep.MatchHere | xv6-os/user/grep.c:85-96 | true exactly when some prefix of the text, all of it after a final '$', is in the language of the pattern; ends |
| Grep.MatchStar | xv6-os/user/grep.c:99-106 | true exactly when the rest matches after some run of fitting characters; ends |
| Grep.Match | xv6-os/user/grep.c:72-82 | true exactly when some suffix, the whole text after '^', has such a prefix; ends |

## Left out

- Memory of a crash inside one block write: single-block writes are atomic.
- InodeBlocks.FileSystem.Writei: a failed copyin changes nothing, while the code may leave part of the bytes in the buffer, unlogged; what that does to the cache is in BufferCache.
- FileCrash.FilesSurviveWhole: the chunks come one after another, as one process makes them; interleaved writers are in FileRuns. How a block's contents are written down as words is a parameter, and the log_write calls of a chunk are given by the blocks it logs and their final contents.
- FileRuns.FilesSurviveTogether: the sections are those of ilock, balloc, bmap, writei, iupdate and iunlock; the methods of InodeBlocks.FileSystem are not shown to be sequences of them. itrunc, inode allocation and directories are not among the sections.
- Inode locks, iget and iput, directories, path lookup, link counts and the file table: the file model is one operation at a time.
- The kernel's own page table.
- The tie between the 64-bit words of Sv39 and the entry records of PageTable.
- Junk filling of freed pages, and the bytes of free pages.
- Buddy.Allocator.BdMalloc: block indices are unbounded, while the code keeps offsets in a 32-bit int, so heaps of 2 GB and more are not modelled; the packed bit arrays are sets of blocks.
- BuddyInit.Setup.BdInit: memory of less than 176 bytes cannot hold the allocator's own data, and on exactly a power of two of leaves the code reads past an array; neither is given a result.
- LogLayer.Log.Commit: the readers read blocks that are not logged and not in the log area, and stay until the commit ends; a reader of a logged block makes commit wait. The same holds for the operations commit is made of.
- Vm.Memory.Kfree: pages are numbers of managed pages, so the panic for an address out of range or not aligned is not reached.
- Vm.Memory.UvmUnmap: with do_free it is asked that each mapped page in the range belongs to its mapping, as user pages do.
- Vm.Memory.UvmDealloc: asks the same.
- Vm.Memory.UvmFree: asks the same.
- Vm.Memory.MapPages: permissions contain R, W or X, as all callers pass; an entry without them would look like a pointer to a table. Addresses are page numbers, so the panics for unaligned ones are not reached.
- Vm.Memory.UvmCopy: it is asked that the pages copied are not on the free list, since the bytes of free pages are not modelled.
- Vm.Memory.UvmAlloc: sizes are unbounded integers, so wrap-around of a 64-bit size is not modelled.
- Umalloc.Allocator.Malloc: the request is an unbounded integer, so wrap-around in the computation of nunits is not modelled.
- Sleep and wakeup appear at three grains: lock by lock in SleepLock, section by section in ExitWait, and as one step each in Pipe and Virtio.
- The freeing of a pipe once both ends are closed.
- Device failure: a completed request has status 0, as virtio_disk_intr panics otherwise.
- Fairness and liveness: the theorems say nobody sleeps without reason, not that somebody runs.
- Assembly, boot code, interrupt controllers, the console, printing, exec, system call arguments, the files mkfs adds, and the test programs.
