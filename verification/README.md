# A verified model of the xv6 memory, storage and process core

The repository is an xv6 kernel with copy-on-write fork, and two user-level
concurrency programs.  This project models the parts whose correctness is not
local to one function and proves what they promise.  Run
`dafny verify dfyconfig.toml` to check it.

Sequential code is a class whose methods update its fields as the C code does,
each proved against a specification.  Concurrent code is a transition system:
a step is a region of code between lock operations, a run is any interleaving
of the steps, and a panic is a state that is proved unreachable.

- **Copy-on-write memory** (`Cow*.dfy`).  `CowModel` is the machine, with 27
  kinds of step; `CowInvariant` to `CowSafety` prove that its invariant is kept;
  `CowRefinement` and `CowTheorems` prove that what processes see is what they
  would see with eager copies; `CowWitness` has the reachable states in which the
  two differ; `CowKernel` is the code that walks the machine's steps.
- **Page table** (`PageTable`, `Freewalk`, `PageTableCode`): three levels, as
  section 4.4 (Sv39) of the RISC-V Privileged Architecture has them, refine a
  flat map from page number to entry.
- **Redo log** (`Log`, `LogCode`, `LogRun`, `LogGuard`): crash atomicity,
  grouping and reservation.
- **Inodes** (`Fs`, `Bitmap`, `FsCode`, `FsTight`): a file is a byte sequence;
  the bitmap is exact; what a write and a truncation log, exactly.
- **Buffer cache** (`BufCache`, `CacheModel`, `CacheCoherence`).
- **Sleep, wakeup, processes** (`SleepWakeup`, `WakeupClients`, `Proc*`).
- **User level**: the LAZY manager (`LazyManager`), the sorts (`SortSpec`,
  `CountSort`, `SortCode`, `MergeSort`, `MergeThreads`, `NameIndex`), the K&R
  allocator (`Malloc`, `MallocCode`), the grep matcher (`Grep`).
- **Virtio queue** (`Virtio`, `VirtioRun`), after sections 2.6 and 5.2 of
  VIRTIO 1.1.

Eight things the code does not do as its comments suggest.  In each case the
model follows the code, and the exact condition is proved (for the NAME index, a
sufficient one).

- `copyout` tests PTE_V and PTE_U but not PTE_W, so it can write to a read-only
  page that another process shares (`ReadOnlyCopyoutLeaks`, `CopyoutExact`).
- `iscowpage` compares the faulting address with `p->sz`, which need not end at a
  page boundary: after `sbrk(1)` and fork a store to the rest of the last page
  kills the process, although it succeeded before the fork
  (`TailStoreRefused`).  With memory free a store to a shared user page lands
  exactly below `p->sz` (`CowStoreExact`, `Store`).
- `uvmunmap` clears a PTE only after `kfree` has given the page up, so another
  process can have the page writable while the old PTE still points to it
  (`StalePteRemains`); no process sees that, and every other PTE of a writable
  page is such a one (`CowRefinesEager`, `WritableIsSole`).
- `log_write` tests for a full log before it looks whether the block is logged
  already, so three operations that fill the log within their reservations make
  the next rewrite panic, however big the log is (`BigLogPanicsToo`,
  `WritePanicsExactly`).  Writers that have reservation left are safe exactly
  when `log.size > LOGSIZE`, one more than mkfs writes (`GuardExact`).
- `itrunc` logs a bitmap block for each range in which the file has blocks, which
  can be more than an operation may log (`TruncOverruns`, `TruncFits`); mkfs's
  disk has one bitmap block (`SmallDiskFits`).
- `malloc` of more than 2^31 - 32 bytes gets a header for units that `sbrk` has
  not given (`RequestExact`, `BigRequestGetsNothing`).
- A LAZY delete reads `time_requests` twice with the mutex held; a later request
  that falls into the same slot in between leaves it spinning for good.  That can
  happen if and only if some read or write comes after the delete in the same
  slot, REQUEST_TIME_ARRAY_SIZE seconds later or more (`ClashCanSpin`,
  `NoClashNoSpin`).
- The NAME index of the counting sort orders as strcmp does on names of one
  length and one case, not on others, where an index can be negative
  (`OneLengthInOrder`, `IndexOutOfOrder`).

`kfree` would also return with `ref_page_lock` held on a count of zero or less;
no run reaches that (`CountsAreOwners`).

Assumptions: one disk-block write is atomic and a crash loses all memory; init
does not exit; a device completes each submitted request once; LAZY has c >= 1
and its `time_requests` start at zero although main does not initialise them;
qsort leaves a sorted permutation of its part; the allocator's `base` lies below
the heap.  Clocks, the scheduler's choices, the thread a signal wakes, whether
`sbrk` grants, and the number of page-table pages a `mappages` needs inside
`fork` are parameters or free choices of the run.

## Model

| member | source | states |
|---|---|---|
| `CowSafety.StepKeeps` | initial-xv6/src/kernel/kalloc.c:60-120 | every one of the 27 steps (store, fault, kalloc, kfree, fork, grow, shrink, exit, reap, copyout; what follows kfree outside its locks is a step of its own) by any process keeps the whole invariant: exact counts, distinct unowned free pages, writable pages shared with stale PTEs only, pages mapped exactly below PGROUNDUP(p->sz), no panic |
| `CowTheorems.RunSafe` | initial-xv6/src/kernel/vm.c:306-422 | the invariant holds in every state of every interleaved run from boot |
| `CowTheorems.CountsAreOwners` | initial-xv6/src/kernel/kalloc.c:60-120 | in every reachable state the count of a page is the number of its owners (counted PTEs, kernel, pages held in mid-operation), free-list pages are distinct with count 0, and neither a panic nor the return with ref_page_lock held has happened |
| `CowTheorems.WritableIsSole` | initial-xv6/src/kernel/trap.c:79-131 | a writable PTE that is not being removed has count 1, and any other PTE that points to its page is stale: its kfree has returned and uvmunmap is about to clear it |
| `CowTheorems.CopySourceAlive` | initial-xv6/src/kernel/trap.c:97-129 | while a handler is about to copy a shared page, that page has an owner and is neither free nor on its way to the free list |
| `CowTheorems.StepRefines` | initial-xv6/src/kernel/vm.c:306-343 | each step is matched by a step (or no step) of a machine with eager copies and no page tables, and the memories agree afterwards; a killed process exits there too |
| `CowTheorems.CowRefinesEager` | initial-xv6/src/kernel/vm.c:306-422 | over every run and at every step whose copyout target had PTE_W or PTE_COW, what each live process sees (contents and permissions of its pages) changes as in the eager machine; what a store does there and here differs beyond p->sz and when memory is out, see CowStoreExact and Store |
| `CowTheorems.CopyoutExact` | initial-xv6/src/kernel/vm.c:362-422 | copyout tests PTE_V and PTE_U only: its write behaves as on a private copy if and only if no other visible page shares the physical page, or the bytes were already there |
| `CowTheorems.CopyoutGuarded` | initial-xv6/src/kernel/vm.c:373-415 | a target that had PTE_W or PTE_COW is never seen elsewhere, so the guard the code lacks would be enough |
| `CowWitness.ReadOnlyCopyoutLeaks` | initial-xv6/src/kernel/vm.c:373-415 | a reachable state in which a copyout by one process to a read-only page changes what the other process reads |
| `CowWitness.TailStoreRefused` | initial-xv6/src/kernel/trap.c:31-36 | a reachable state, after sbrk(1) and fork and with memory free, in which the eager machine performs a store at byte 100 of the only page and the kernel takes it neither as allowed nor as a copy-on-write fault |
| `CowWitness.StalePteRemains` | initial-xv6/src/kernel/vm.c:181-191 | a reachable state in which one process may write a page that a stale PTE of another still points to |
| `CowKernel.Kernel.Kalloc` | initial-xv6/src/kernel/kalloc.c:103-120 | takes the head of the free list, fills it and sets its count to 1, or changes nothing and returns None |
| `CowKernel.Kernel.Kfree` | initial-xv6/src/kernel/kalloc.c:61-97 | panics exactly on a count of 0 or less; the last reference returns the page, any other only lowers the count |
| `CowKernel.Kernel.Uvmunmap` | initial-xv6/src/kernel/vm.c:171-192 | removes the whole range, keeps the invariant and what every process sees, and does not panic |
| `CowKernel.Kernel.PrivateCopy` | initial-xv6/src/kernel/trap.c:97-129 | fails exactly on an empty free list and then changes nothing; otherwise the page is private and writable and every view is unchanged |
| `CowKernel.Kernel.CopyOf` | initial-xv6/src/kernel/trap.c:104-111 | a page with the shared page's contents, held by this process only, or nothing changed when memory is out |
| `CowKernel.Kernel.Exchange` | initial-xv6/src/kernel/trap.c:112-118 | drops the shared page and maps the copy in its place; no view changes |
| `CowKernel.Kernel.CowFault` | initial-xv6/src/kernel/trap.c:79-131 | the handler, below p->sz, kills the process if and only if the page is shared and memory is out; otherwise the PTE is writable, not COW, and no view has changed |
| `CowKernel.Kernel.Store` | initial-xv6/src/kernel/trap.c:31-138 | a store lands if and only if the page has PTE_U and either PTE_W, or PTE_COW with the address below p->sz and a free page unless the count is 1; it then takes at most two faults, does what it does in the eager machine, and only stale PTEs share the page; otherwise the process is killed and nothing else changes |
| `CowKernel.CowStoreExact` | initial-xv6/src/kernel/trap.c:31-36 | with memory free a store to a user COW page lands if and only if its address is below p->sz, while the eager machine performs it anywhere in the page |
| `CowKernel.Kernel.CopyoutPage` | initial-xv6/src/kernel/vm.c:367-419 | one page of copyout keeps the invariant; on a writable or COW page it is the eager write, and failure means no memory and no visible change |
| `CowKernel.Kernel.Copyout` | initial-xv6/src/kernel/vm.c:362-422 | for writable targets success replaces exactly the bytes dstva..dstva+len of this process, failure leaves a proper prefix and names its cause (memory, or a page without PTE_U); the invariant holds for all targets |
| `CowKernel.Kernel.Fork` | initial-xv6/src/kernel/proc.c:290-338 | success gives the child exactly the parent's memory and size and changes no other view; failure at any page gives everything back |
| `CowKernel.Kernel.Uvmcopy` | initial-xv6/src/kernel/vm.c:306-343 | shares every page below PGROUNDUP(sz), or stops at the page whose table allocation failed with exactly the earlier pages to undo; no view changes |
| `CowKernel.Kernel.ForkPage` | initial-xv6/src/kernel/vm.c:312-337 | one turn of uvmcopy keeps the invariant and every view, and on a failed table allocation leaves exactly the pages copied so far to undo |
| `CowKernel.FreeSteps` | initial-xv6/src/kernel/kalloc.c:61-97 | the steps of one kfree call, taken together, find a positive count and change no view |
| `PageTable.SplitInjective` | initial-xv6/src/kernel/riscv.h:356-364 | below MAXVA the three 9-bit indices determine the page |
| `PageTable.SetLeaf` | initial-xv6/src/kernel/vm.c:143-165 | writing one leaf entry keeps the tree well formed and changes the flat map at one page number only |
| `PageTable.AddTable` | initial-xv6/src/kernel/vm.c:90-101 | linking a fresh zeroed table keeps the tree well formed, changes one position and nothing in the flat map |
| `PageTable.EachTableOnce` | initial-xv6/src/kernel/vm.c:272-287 | the order in which freewalk frees lists every table page of the tree once and no other page |
| `Freewalk.LeafFreeIsNoLeaf` | initial-xv6/src/kernel/vm.c:272-287 | freewalk meets no leaf if and only if no bottom entry is valid |
| `Freewalk.ShapeFrame` | initial-xv6/src/kernel/vm.c:272-287 | a subtree depends only on the pages freewalk frees in it |
| `PageTableCode.Mmu.Walk` | initial-xv6/src/kernel/vm.c:86-103 | finds the bottom table of va, or says it is missing (without alloc) or memory is out; takes at most two pages, and the flat map never changes |
| `PageTableCode.Mmu.Walkaddr` | initial-xv6/src/kernel/vm.c:109-126 | returns the physical page of the flat map's entry if it is valid and PTE_U, else 0, for every va |
| `PageTableCode.Mmu.Mappages` | initial-xv6/src/kernel/vm.c:143-165 | success maps exactly the pages of the range to consecutive frames, all unmapped before; failure and panic leave a mapped prefix and name the reason |
| `PageTableCode.Mmu.Uvmunmap` | initial-xv6/src/kernel/vm.c:171-192 | panics if and only if va is unaligned or some page of the range is not mapped; otherwise clears exactly the range and frees its frames in order |
| `PageTableCode.Mmu.Freewalk` | initial-xv6/src/kernel/vm.c:272-287 | panics if and only if a leaf is left; otherwise frees exactly the subtree's table pages, in order, and touches no other page |
| `PageTableCode.Mmu.Uvmfree` | initial-xv6/src/kernel/vm.c:292-297 | panics if and only if the mapped pages are not exactly those below sz; otherwise frees every frame and then every table page once |
| `Log.HeadRoundTrip` | initial-xv6/src/kernel/log.c:87-114 | the header written is the header read back |
| `Log.RecoveryIdempotent` | initial-xv6/src/kernel/log.c:117-123 | a crash after any block write of recovery leaves a disk that recovers to the same home blocks |
| `Log.AnyNumberOfCrashes` | initial-xv6/src/kernel/log.c:117-123 | so does any number of crashed recoveries in a row |
| `Log.CommitAtomic` | initial-xv6/src/kernel/log.c:194-203 | a crash after any block write of commit recovers to all of the transaction or none of it: none before the header write, all from it on |
| `Log.CommitEnds` | initial-xv6/src/kernel/log.c:194-203 | a finished commit has installed the transaction and cleared the header |
| `Log.RecoveryEnds` | initial-xv6/src/kernel/log.c:117-123 | a finished recovery has installed the logged blocks and cleared the header |
| `LogCode.LogState.WriteHead` | initial-xv6/src/kernel/log.c:103-114 | writes one block, after which the header reads back as the log header in memory |
| `LogCode.LogState.ReadHead` | initial-xv6/src/kernel/log.c:87-97 | reads back the header on disk |
| `LogCode.LogState.WriteLog` | initial-xv6/src/kernel/log.c:179-191 | every disk image of the loop, in order: log blocks filled one by one from the cache |
| `LogCode.LogState.InstallTrans` | initial-xv6/src/kernel/log.c:69-83 | every disk image of the loop, in order; outside recovery all pins are dropped |
| `LogCode.LogState.Commit` | initial-xv6/src/kernel/log.c:194-203 | the disk images it passes through are exactly the trace that is proved atomic; it ends with the cache contents at home and an empty log |
| `LogCode.LogState.RecoverFromLog` | initial-xv6/src/kernel/log.c:117-123 | the disk images it passes through are exactly the trace that is proved idempotent; it ends with an empty log |
| `LogCode.LogState.LogWrite` | initial-xv6/src/kernel/log.c:215-235 | panics exactly at its guards; otherwise absorbs a repeated block and appends a new one |
| `LogRun.StepKeeps` | initial-xv6/src/kernel/log.c:127-203 | every step, including a crash at any block write, keeps grouping, reservation and the disk's relation to history |
| `LogRun.OperationsAreAtomic` | initial-xv6/src/kernel/log.c:127-203 | in every state of every run with crashes, the disk recovers to the replay of the committed updates, and each operation is in them with all its updates or none |
| `LogRun.ReservationHolds` | initial-xv6/src/kernel/log.c:127-142 | logged blocks plus every admitted operation's unused reservation never exceed LOGSIZE, so an operation with reservation left finds room |
| `LogRun.HistoryGrows` | initial-xv6/src/kernel/log.c:147-175 | what is committed stays committed, across crashes |
| `LogGuard.WritePanicsExactly` | initial-xv6/src/kernel/log.c:215-235 | the guard comes before absorption: in any run a write panics if and only if LOGSIZE blocks are logged or log.size - 1 are; with LOGSIZE logged every active operation has spent its reservation and the write is a rewrite |
| `LogGuard.BigLogPanicsToo` | initial-xv6/src/kernel/log.c:215-235 | for every log.size > LOGSIZE there is a run in which operations within their reservation reach the panic: three log ten blocks each and one rewrites its own |
| `LogGuard.BigLogNeverPanics` | initial-xv6/src/kernel/log.c:215-235 | with log.size > LOGSIZE no run in which every writer has reservation left reaches the panic |
| `LogGuard.SmallLogPanics` | initial-xv6/src/kernel/log.c:215-235 | with log.size <= LOGSIZE some run in which every writer has reservation left does |
| `LogGuard.GuardExact` | initial-xv6/src/mkfs/mkfs.c:25 | the panic is reachable for every log.size; by writers that have reservation left if and only if log.size <= LOGSIZE, and mkfs writes exactly LOGSIZE |
| `Fs.WordRoundTrip` | initial-xv6/src/kernel/fs.c:399-413 | storing a block number in an indirect block changes that word only |
| `Fs.RefAppears` | initial-xv6/src/kernel/fs.c:383-421 | adding a reference to a block that was free keeps the bitmap the disjoint union of metadata and references |
| `Fs.RefDisappears` | initial-xv6/src/kernel/fs.c:426-453 | dropping a reference together with its bitmap bit keeps it too |
| `Fs.WriteEnd` | initial-xv6/src/kernel/fs.c:506-539 | after the loop and the size update the file is the old file with the bytes spliced in, and every other file is as before |
| `FsCode.FirstIsMapped` | initial-xv6/src/kernel/fs.c:515-521 | the unaligned first block of a write is already mapped, because files have no holes |
| `FsCode.AtMostNine` | initial-xv6/src/kernel/file.c:148-175 | data, indirect and bitmap blocks of one chunk: at most nine, however the chunk is aligned |
| `FsCode.FileSystem.Balloc` | initial-xv6/src/kernel/fs.c:66-88 | the lowest free block, zeroed and marked; 0 exactly when none is free |
| `FsCode.FileSystem.Bfree` | initial-xv6/src/kernel/fs.c:92-105 | panics exactly on a free block; otherwise clears its bit |
| `Bitmap.BlockMap.Balloc` | initial-xv6/src/kernel/fs.c:66-88 | on the packed bytes: sets the lowest clear bit and no other, or changes nothing when all are set |
| `Bitmap.BlockMap.Bfree` | initial-xv6/src/kernel/fs.c:92-105 | on the packed bytes: panics exactly on a clear bit, else clears it and no other |
| `Bitmap.OneBit` | initial-xv6/src/kernel/fs.c:75-77 | setting or clearing a bit of a byte with a mask leaves the other seven |
| `FsCode.FileSystem.Bmap` | initial-xv6/src/kernel/fs.c:383-421 | maps the block, changing no other block number of any file and no content; a mapped block costs nothing; failure means a full disk |
| `FsCode.FileSystem.Readi` | initial-xv6/src/kernel/fs.c:472-496 | returns exactly the slice of the file, clipped at its size, and changes nothing |
| `FsCode.FileSystem.Writei` | initial-xv6/src/kernel/fs.c:506-539 | -1 exactly for its three argument tests; else splices exactly the returned prefix, leaves other files alone, is short only on a full disk, and logs every block it changes, at most 10 of them for up to 3 blocks of data |
| `FsCode.FileSystem.Itrunc` | initial-xv6/src/kernel/fs.c:426-453 | empties the file, frees exactly its blocks, leaves other files alone and never hits the free-block panic; it logs exactly the inode's block and the bitmap blocks in which the file has blocks |
| `FsCode.TruncFits` | initial-xv6/src/kernel/fs.c:426-453 | itrunc stays within MAXOPBLOCKS if and only if the file's blocks lie in fewer than MAXOPBLOCKS bitmap blocks |
| `FsCode.SmallDiskFits` | initial-xv6/src/kernel/fs.c:426-453 | on a disk of fewer than MAXOPBLOCKS bitmap blocks that does not happen |
| `FsTight.TruncOverruns` | initial-xv6/src/kernel/fs.c:426-453 | a valid file system in which itrunc of a twelve-block file logs more than MAXOPBLOCKS blocks |
| `FsTight.TenAreLogged` | initial-xv6/src/kernel/fs.c:506-539 | in a file system whose free blocks lie in different bitmap blocks, a write of three blocks at byte 11*BSIZE+1 of a twelve-block file logs ten different blocks |
| `FsTight.WriteTen` | initial-xv6/src/kernel/file.c:148-175 | writei(0, 11*BSIZE+1, src) with any 3*BSIZE nonzero bytes on that file system returns 3*BSIZE, does what Writei promises, and logs exactly ten blocks, so the bound is reached |
| `FsTight.CrowdedWrite` | initial-xv6/src/kernel/file.c:148-175 | there is such a file system and such a write |
| `FsCode.FileSystem.Filewrite` | initial-xv6/src/kernel/file.c:135-181 | splices the accepted prefix and advances the offset by it; every operation logs at most MAXOPBLOCKS blocks |
| `BufCache.Cache.Bget` | initial-xv6/src/kernel/bio.c:59-89 | a hit keeps the buffer and counts a user; a miss recycles the least recently used unreferenced buffer; it panics exactly when the block is absent and every buffer is in use; the ring is untouched |
| `BufCache.Cache.Brelse` | initial-xv6/src/kernel/bio.c:117-137 | drops one user and at zero moves the buffer to the front of the ring, keeping it a doubly linked permutation of all buffers |
| `BufCache.Cache.constructor` | initial-xv6/src/kernel/bio.c:37-53 | builds the ring of all buffers |
| `BufCache.Unlink` | initial-xv6/src/kernel/bio.c:126-129 | two pointer writes take one node out of the ring and keep the rest in order |
| `BufCache.Insert` | initial-xv6/src/kernel/bio.c:130-133 | four pointer writes put a node at the front |
| `BufCache.Cache.FindCached` | initial-xv6/src/kernel/bio.c:65-72 | walking the ring forward finds a buffer of the block if and only if there is one |
| `BufCache.Cache.FindUnused` | initial-xv6/src/kernel/bio.c:76-87 | walking it backward finds the least recently used buffer that nobody refers to, or says that all are in use |
| `CacheCoherence.StepKeeps` | initial-xv6/src/kernel/log.c:68-203 | every step of clients inside operations and of the committer in write_log, write_head and install_trans, also during recovery, keeps uniqueness, the meaning of refcnt, which buffers are pinned, and coherence |
| `CacheCoherence.CacheIsCoherent` | initial-xv6/src/kernel/bio.c:59-151 | in every reachable state, also in the middle of a commit, a valid, unlocked buffer that is not logged and pinned equals its disk block, and no other buffer holds that block |
| `CacheCoherence.CommitIsSound` | initial-xv6/src/kernel/log.c:147-203 | when the last operation ends, everything that differs from the disk is logged and pinned; the memmove of install_trans leaves the cache as it is; what is unpinned is pinned and on the disk; the header is cleared with nothing pinned |
| `CacheCoherence.QuietIsClean` | initial-xv6/src/kernel/log.c:147-203 | with no operation active and no commit running, the log is empty, nothing is pinned and every cached block is on the disk |
| `CacheCoherence.NotRecycled` | initial-xv6/src/kernel/bio.c:73-85 | a buffer that is referenced or pinned keeps its block over the next step |
| `SleepWakeup.NoLostWakeup` | initial-xv6/src/kernel/proc.c:555-601 | for every disciplined client: with the condition lock free, nobody is asleep, or on the way to sleep, on a condition that holds |
| `SleepWakeup.StepKeeps` | initial-xv6/src/kernel/proc.c:555-601 | the invariant behind it survives every interleaving of the two locks, including a wakeup scan half done |
| `WakeupClients.SleepLockNotMissed` | initial-xv6/src/kernel/sleeplock.c:22-41 | a sleeper on a sleep lock implies that it is locked |
| `WakeupClients.AdmissionNotMissed` | initial-xv6/src/kernel/log.c:127-175 | a sleeper in begin_op implies that it may not begin |
| `WakeupClients.ZombieNotMissed` | initial-xv6/src/kernel/proc.c:342-455 | a sleeper in wait has no zombie child |
| `WakeupClients.ExitWakes` | initial-xv6/src/kernel/proc.c:342-401 | exit, with reparent, wakes every process whose wait it makes return |
| `WakeupClients.FamilyDisciplined` | initial-xv6/src/kernel/proc.c:342-455 | fork, exit and wait are disciplined clients |
| `ProcTheorems.StepKeeps` | initial-xv6/src/kernel/proc.c:290-601 | every step of fork, exit, wait, sleep, wakeup and the schedulers, with preemption wherever no spin lock is held, also in the middle of fork and wait, keeps the process-table invariant |
| `ProcTheorems.SchedNeverPanics` | initial-xv6/src/kernel/proc.c:503-520 | sched is only entered with its own lock held, no other lock, not RUNNING and with interrupts off, so none of its four tests fails |
| `ProcTheorems.OneCpu` | initial-xv6/src/kernel/proc.c:464-494 | in every reachable state a process runs on at most one CPU, and nothing has panicked |
| `ProcTheorems.RunnableIsAway` | initial-xv6/src/kernel/proc.c:474-489 | a process that a scheduler is about to run has left every CPU and has not exited |
| `ProcTheorems.ParentsAlive` | initial-xv6/src/kernel/proc.c:342-401 | a parent is never ZOMBIE or UNUSED |
| `ProcTheorems.ReapedOnce` | initial-xv6/src/kernel/proc.c:405-455 | wait reaps only its own child, which has exited, has not been reaped, has left every CPU, and was made by this process unless init reaps it |
| `ProcTheorems.ExitedStays` | initial-xv6/src/kernel/proc.c:359-455 | an exited process never vanishes: from then on it has been reaped, or it is a zombie in the table with a live parent |
| `ProcTheorems.SpinLocksNeverPanic` | initial-xv6/src/kernel/spinlock.c:22-110 | in every reachable state, for every step the code is at the point of making: each lock it acquires is not held by this CPU, each lock it releases is, and pop_off finds a positive depth and interrupts off |
| `ProcTheorems.WaitsForLocks` | initial-xv6/src/kernel/proc.c:290-601 | a step is enabled if and only if the code is at its start, what it tests under its locks holds, and the locks it acquires are free |
| `ProcTheorems.LocksChange` | initial-xv6/src/kernel/spinlock.c:22-66 | a step ends with exactly the locks it acquired and without those it released |
| `ProcTheorems.ReapedGrows` | initial-xv6/src/kernel/proc.c:405-455 | a reaped pid stays reaped |
| `LazyManager.StepKeeps` | concurrency/partA.c:78-264 | every region between mutex operations, and the two reads of time_requests in a delete as separate steps, with any signalled thread, keeps the manager's invariant |
| `LazyManager.LazyIsSafe` | concurrency/partA.c:78-264 | in every reachable state concurrent_access is readers plus writers and at most c, there is at most one writer, no access once deleted, and a blocked thread coexists with an access in progress or a woken thread |
| `LazyManager.SameTimeFirst` | concurrency/partA.c:198-215 | when a delete passes its test of time_requests, on two reads in a row or after spinning, every read and write of its own second has been dispatched and has taken the mutex |
| `LazyManager.DeleteComesLast` | concurrency/partA.c:334-357 | in every reachable state a delete that has passed its test comes after every read and write of the same second |
| `LazyManager.ClashCanSpin` | concurrency/partA.c:208-214 | if a read or write comes later than a delete and in its slot, some run leaves the delete spinning with the mutex held |
| `LazyManager.NoClashNoSpin` | concurrency/partA.c:208-214 | if none does, no run does |
| `LazyManager.SpinsForever` | concurrency/partA.c:208-214 | a delete that spins with the mutex held does so after every further step |
| `LazyManager.ClashIsFar` | concurrency/partA.c:334-357 | two such requests are at least REQUEST_TIME_ARRAY_SIZE seconds apart |
| `CountSort.PlaceTwice` | concurrency/partB.c:246-275 | the place that populate_output gives to an element of the bucket lists is an involution |
| `CountSort.WrittenOnce` | concurrency/partB.c:246-275 | two elements never go to the same output index |
| `CountSort.CopyDone` | concurrency/partB.c:246-275 | when every thread has finished its share, in any interleaving, the output is complete |
| `CountSort.ParallelCountSort` | concurrency/partB.c:300-408 | for every interleaving of the bucket critical sections and of the copying threads the result is a sorted permutation of the files |
| `SortCode.Sorter.HandOut` | concurrency/partB.c:366-391 | thread t is told where chunk t starts: its arguments fit PopulateOutput and cover exactly the elements of the chunk |
| `SortCode.DistributedCountSort` | concurrency/partB.c:300-408 | any interleaving of the stores that PopulateOutput makes for the arguments of HandOut, after any interleaving of the counting threads, leaves a sorted permutation of the files |
| `SortCode.Sorter.GetMaxMinValues` | concurrency/partB.c:140-186 | the bounds enclose every key |
| `SortCode.Sorter.CountLocal` | concurrency/partB.c:213-243 | pushes a chunk on the bucket lists, which then hold exactly the files so far, newest first |
| `SortCode.Sorter.Compress` | concurrency/partB.c:346-362 | the non-empty buckets in key order, with sizes and running totals |
| `SortCode.Sorter.PopulateOutput` | concurrency/partB.c:246-275 | writes exactly its share of the elements, each at its place |
| `SortCode.Sorter.Advance` | concurrency/partB.c:377-387 | moves the (list, offset) pair by one share |
| `SortCode.Sorter.NonDistributedCountSort` | concurrency/partB.c:410-510 | sorted and stable for every non-empty input, although each bucket list is last-in-first-out |
| `SortCode.StackedIsStable` | concurrency/partB.c:246-275 | filling backwards from last-in-first-out buckets is a stable sort |
| `MergeSort.Merge` | concurrency/partB.c:512-554 | merges the two halves in place, taking the left on ties |
| `MergeSort.MergedStable` | concurrency/partB.c:512-554 | the merge of two stably sorted halves is the whole, stably sorted |
| `MergeSort.MergeSortNonDistributed` | concurrency/partB.c:556-564 | sorts the range stably in place and nothing outside it changes |
| `MergeThreads.StepKeeps` | concurrency/partB.c:568-607 | a step of any thread, in qsort, at a fork, at a join or in merge's copying loop, changes nothing outside its part and keeps every thread's part as its position says |
| `MergeThreads.ThreadsSort` | concurrency/partB.c:568-624 | for every number of levels and every interleaving of the threads, when the first thread is done the array is a sorted permutation of what it was |
| `SortSpec.StableIsUnique` | concurrency/partB.c:410-564 | an input has only one stably sorted order |
| `MergeSort.SortsAgree` | concurrency/partB.c:410-564 | count sort and merge sort return the same array, a permutation of the input |
| `NameIndex.ConvertToIndex` | concurrency/partB.c:102-128 | the loop computes the number that the letters of the name are in base 26 |
| `NameIndex.OneLengthInOrder` | concurrency/partB.c:102-128 | on names of one length and one case the index orders as strcmp does |
| `NameIndex.IndexOutOfOrder` | concurrency/partB.c:102-137 | fileB.txt and filea.txt, or fileazz.txt and fileb.txt: the first is the smaller by strcmp, and the second has a negative index relative to it |
| `MallocCode.Heap.FindGap` | initial-xv6/src/user/umalloc.c:25-35 | free's search ends within one lap at the place where the block belongs |
| `MallocCode.Heap.Insert` | initial-xv6/src/user/umalloc.c:36-43 | links the block in and joins it with either neighbour it touches |
| `MallocCode.Heap.Free` | initial-xv6/src/user/umalloc.c:25-44 | the list stays address-ordered, circular and fully coalesced; exactly the block's units become free |
| `MallocCode.Heap.Morecore` | initial-xv6/src/user/umalloc.c:47-61 | adds one granted run of at least nu units, after which a big enough block exists; overrun exactly when sbrk grants a byte count that its int argument has changed |
| `MallocCode.Heap.Malloc` | initial-xv6/src/user/umalloc.c:64-90 | overrun if and only if nbytes > 2^31 - 32, nothing free fits and sbrk succeeds; otherwise returns a block of the right size that overlaps no live block, calls morecore at most once and only when no free block fits, and fails only if sbrk does |
| `MallocCode.RequestExact` | initial-xv6/src/user/umalloc.c:47-70 | sbrk grows the process by what morecore asked for if and only if nbytes <= 2^31 - 32 |
| `MallocCode.BigRequestGetsNothing` | initial-xv6/src/kernel/proc.c:267-286 | one byte more makes the argument negative and leaves the size as it was, although sbrk succeeds; the largest request gets one unit |
| `MallocCode.Heap.Search` | initial-xv6/src/user/umalloc.c:72-89 | finds a fitting block if and only if there is one |
| `MallocCode.OneBlock` | initial-xv6/src/user/umalloc.c:25-44 | in a fully coalesced list a contiguous free run lies inside one block |
| `MallocCode.FreeConserved` | initial-xv6/src/user/umalloc.c:25-44 | free conserves the units obtained from sbrk |
| `MallocCode.TakeConserved` | initial-xv6/src/user/umalloc.c:64-90 | so does malloc |
| `Virtio.Queue.AllocDesc` | initial-xv6/src/kernel/virtio_disk.c:157-166 | takes the lowest free descriptor |
| `Virtio.Queue.FreeDesc` | initial-xv6/src/kernel/virtio_disk.c:170-182 | panics exactly on a bad or free index; otherwise clears and frees it |
| `Virtio.Queue.Alloc3Desc` | initial-xv6/src/kernel/virtio_disk.c:202-213 | takes the three lowest free descriptors, or rolls back exactly |
| `Virtio.Queue.FreeChain` | initial-xv6/src/kernel/virtio_disk.c:186-197 | frees exactly the three descriptors of the chain |
| `VirtioRun.StepKeeps` | initial-xv6/src/kernel/virtio_disk.c:216-327 | every step of driver and device keeps the queue invariant |
| `VirtioRun.DescriptorsAccounted` | initial-xv6/src/kernel/virtio_disk.c:216-327 | in every reachable state a descriptor is free and cleared, as alloc3_desc needs it, or in exactly one three-long chain, and nothing has panicked |
| `VirtioRun.SlotIsFree` | initial-xv6/src/kernel/virtio_disk.c:271-277 | a submission never overwrites an available-ring entry that the device has not read, across 16-bit wrap |
| `VirtioRun.IntrRight` | initial-xv6/src/kernel/virtio_disk.c:312-324 | the interrupt handler finds the completed chain and clears the buffer that was submitted with it |
| `Grep.HereIsPrefix` | initial-xv6/src/user/grep.c:84-95 | matchhere is true if and only if some prefix of the text is in the language of the pattern |
| `Grep.StarIsSplit` | initial-xv6/src/user/grep.c:98-105 | matchstar is true if and only if the text splits into a run of the starred character and a match of the rest |
| `Grep.MatchStarLoop` | initial-xv6/src/user/grep.c:98-105 | the do-while loop computes that |
| `Grep.Match` | initial-xv6/src/user/grep.c:72-81 | true if and only if some substring, or after ^ some prefix, is in the language of the pattern |

## Left out

- Boot, traps, interrupts and device registers: only the steps the protocols need.
- CowKernel.Kernel.Copyout: what other processes see is stated for pages that are writable or COW, because it is false otherwise (ReadOnlyCopyoutLeaks); the exact condition for one page is CopyoutExact.
- CowKernel.Kernel.Fork: the shape of the child's page-table pages is abstracted to how many each page needs; the shape itself is PageTableCode.
- CowTheorems.CowRefinesEager: single-threaded processes, as in xv6; exec's replacement of an address space is not a step.
- PageTableCode.Mmu.Mappages: the permission bits contain one of R, W, X, as at every call in the kernel.
- PageTableCode.Mmu.Uvmunmap: npages * PGSIZE does not wrap around 64 bits.
- kill racing with a sleeper, and waitx: the code promises less there.
- FsCode.FileSystem.Writei: user copies succeed; a copy failing inside a block is not modelled, nor are two inodes changed at once by different processes.
- FsCode.FileSystem.Balloc: here the bitmap is a sequence of booleans; the bytes are in Bitmap, whose methods are proved to do the same to the unpacked bits.
- Inode caching and reference counts (iget, iput), directories, path lookup, exec, pipes, console, shell and mkfs: easier than what is here.
- LogRun.OperationsAreAtomic: reads of uncommitted cache blocks by other operations are not modelled.
- SortCode.Sorter.NonDistributedCountSort: keys are integers, as for ID; for NAME see NameIndex, and TIMESTAMP goes through library calls.  Empty inputs read files[0] in the original.
- qsort itself, the comparison functions (a key is an integer here), and lazy_sort's choice between the sorts.
- LazyManager.LazyIsSafe: pthread_cond_wait never times out, and printing and the timer child processes are dropped.
- MallocCode.Heap.Malloc: what happens after an overrun is not modelled; nothing is promised then.
- CacheCoherence.CacheIsCoherent: log_write's own panics are not steps here (they are in LogGuard), and read_head's copy of the header is part of the boot state.
- grep's line buffering, and command-line handling.
- ProcTheorems.ReapedOnce: liveness (that a zombie is eventually reaped) is not stated.
