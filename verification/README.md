# xv6-riscv, modelled and verified in Dafny

This project models the storage, memory, process and device protocols of an
xv6-riscv kernel, and four of its small algorithms, and proves what they are for.
`dafny verify dfyconfig.toml` checks all of it.

| files | what they model |
|---|---|
| `Common`, `Bytes`, `LogProtocol`, `LogSafety`, `LogRuns` | the write-ahead log over the buffer cache as an interleaved machine with crashes between any two steps, recovery included |
| `LogSpace`, `LogFull` | begin_op's reservation of log space, and exactly when log_write panics |
| `LogLife` | one whole transaction as a run of that machine |
| `LogDevice` | log.c's loops in place; every intermediate disk is on record, so a contract covers every crash point |
| `LruCache` | bio.c's circular doubly linked list, changed in place |
| `FsBitmap`, `FsOwnership`, `FsDinode`, `FsContent`, `FsLayout`, `FsInode`, `FsFile` | block allocation, block mapping, inodes on disk, truncation, reading and writing |
| `FsCrash` | filewrite and truncation over the log: what is on disk at every point, and booting from it |
| `VmMemory`, `VmTree`, `VmSpace`, `VmUser`, `VmGrow`, `VmCopy`, `VmFree` | the page allocator and Sv39 page tables (section 4.4 of the RISC-V Privileged Architecture) as a tree in memory that behaves as a flat map |
| `VmPartition`, `VmProcs` | the memory of all processes over one allocator: allocproc, freeproc, growproc and fork in any order, whichever allocation fails |
| `ProcMachine`, `ProcInvariant`, `ProcParents`, `ProcSleep`, `ProcWait`, `ProcRuns` | scheduler, sleep and wakeup, fork, exit, wait and kill as interleaved steps of all CPUs with explicit lock ownership; at every line without a spinlock a device may interrupt, or the timer preempt |
| `ProcProgress`, `ProcLife` | what those steps can do: a line for every CPU, zombies collected, and one whole life of a process as a run from boot |
| `SleepLock`, `SleepLife` | sleeplock.c on top of the process machine |
| `VirtioQueue`, `VirtioSafety`, `VirtioRuns`, `VirtioDrain`, `VirtioDisk` | the split virtqueue of section 2.6 of Virtio 1.1, shared with a device that completes in any order |
| `HeapBlocks`, `HeapList`, `Umalloc` | the K&R allocator |
| `ShellText`, `ShellGrammar`, `ShellDescent`, `ShellComplete`, `ShellParser`, `ShellRedirect`, `ShellCommand` | the shell's parser, decided against a grammar, and its in-place string termination |
| `Grep` | the regular expression matcher |
| `Pipe` | the pipe ring |

State that the code changes in place is a class with fields, `modifies` clauses
and a `Valid`-style invariant. Code that runs concurrently is a machine: a state,
a predicate saying which steps are possible, a function giving the next state, an
invariant kept by every step, and theorems about every run. Where the source
panics, a method returns a distinguished value or the step is shown impossible.

Ghost state carries what the code only implies: the history of committed disks,
the owner of every disk block, the flat map behind a page table, the order of
last use, the words of a command line.

Facts about the code that shaped the model:

- `log_write` panics at `log.lh.n >= LOGSIZE` even when the block is already in
  the log, and mkfs makes the log LOGSIZE blocks long, header included.
  `LogWritePanicsExactly` says for which number of blocks per call the panic can be
  reached: on mkfs's log and NBUF buffers, exactly when a call may add MAXOPBLOCKS blocks.
  `ChunkWithinBudget` shows that filewrite stays below that.
- NDIRECT is 10 here, so a file has at most 266 blocks.
- `readi` runs outside any transaction although `bmap` can allocate; that it never
  does follows from the absence of holes, which `RunCalls` shows for every sequence of calls.
- `init` can exit: it may return from its loop, be killed, or fault, and then exit
  panics. The process machine assumes that it does none of these.
- growproc does not look out for the trapframe; memory runs out long before user
  memory could reach it, as `FarBelowFrame` shows.
- All buffers start with the key (0, 0), so a key is unique only for devices other than 0.
- A failing copy in `piperead` drops the byte it had taken; the contract of
  `ReadSegment` says so.

## Model

| member | source | states |
|---|---|---|
| LogProtocol.HeaderRoundTrip | xv6-riscv/kernel/log.c:86-114 | read_head after write_head gives back the block list, whatever bytes the header block held |
| LogSafety.StepKeepsInv | xv6-riscv/kernel/log.c:68-235 | every cache action, log_write, begin_op, end_op, disk write of commit and recovery, and crash keeps the invariant tying cache, log and disk together |
| LogSafety.WriteHeadStep | xv6-riscv/kernel/log.c:102-114 | the header write is the commit point: it keeps the invariant while the committed history gains the current contents |
| LogSafety.InstallBlockStep | xv6-riscv/kernel/log.c:68-83 | copying one log block home keeps the disk recoverable to the same contents |
| LogSafety.CrashStep | xv6-riscv/kernel/log.c:116-123 | a crash anywhere leaves a disk from which recovery restores the last committed contents |
| LogRuns.RunKeepsInv | xv6-riscv/kernel/log.c:68-235 | the invariant holds after every run |
| LogRuns.ReplayMeetsRecoversTo | xv6-riscv/kernel/log.c:68-83 | replaying the log block by block gives exactly the contents the log stands for |
| LogRuns.CrashAtomicity | xv6-riscv/kernel/log.c:68-203 | stop any run anywhere and replay the log found on disk: the home blocks are those of the last transaction whose header write completed |
| LogRuns.HistoryGrows | xv6-riscv/kernel/log.c:193-203 | committed states are never lost or reordered; there is one per completed header write |
| LogRuns.RecoveryRestores | xv6-riscv/kernel/log.c:116-123 | once calls are accepted, the home blocks hold the last committed state |
| LogRuns.RunRefines | xv6-riscv/kernel/log.c:178-235 | over any run, the contents last logged and the saved contents change as those of a plain map of blocks with save and restore do; BreadReadsBlockMap ties what callers read to that map |
| LogRuns.BreadReadsBlockMap | xv6-riscv/kernel/bio.c:92-103 | a buffer returned by bread and not yet changed holds the block map's contents, whatever was recycled, committed or lost |
| LogRuns.CommitsWholeCalls | xv6-riscv/kernel/log.c:146-175 | the header is written only when no call is outstanding |
| LogRuns.NoHomeWriteBeforeCommit | xv6-riscv/kernel/log.c:193-203 | a home block changes on disk only when a header naming it is there, and only to its committed contents |
| LogRuns.LoggedStaysCached | xv6-riscv/kernel/log.c:214-235 | a logged block stays in a valid, referenced buffer, so bget does not recycle it |
| LogSpace.ReservationIsSound | xv6-riscv/kernel/log.c:126-142 | on every run of the log machine, blocks in the log plus unspent budgets never exceed LOGSIZE, and while a commit or recovery runs no call is outstanding |
| LogFull.LogWritePanicsExactly | xv6-riscv/kernel/log.c:214-223 | some run of the log machine from boot, with calls adding at most k blocks, reaches "too big a transaction" if and only if LOGSIZE or the log size less one is at most MAXOPBLOCKS + 2k, and the disk and the buffer cache have room for that many blocks |
| LogSpace.ProtocolFollowsAccount | xv6-riscv/kernel/log.c:126-235 | every step of the log machine is a step of the space account |
| LogSpace.LogWriteNeverPanics | xv6-riscv/kernel/log.c:214-223 | if every call adds at most k blocks and MAXOPBLOCKS + 2k is below the limit, no run of the log machine reaches the panic |
| LogFull.FillsLog | xv6-riscv/kernel/log.c:126-235 | otherwise there is a run, from boot, that brings the log to the limit with a call still open |
| LogFull.QuietAdd | xv6-riscv/kernel/log.c:214-235 | a call with budget left can read, log and release a block, wherever a run has left the log below its limit |
| LogLife.CommitsToDisk | xv6-riscv/kernel/log.c:126-235 | for every home block and every contents there is a run from boot in which a call logs them, commit brings them to that block, and the log is empty again |
| LogDevice.Log.LogWrite | xv6-riscv/kernel/log.c:214-235 | a new block is appended, a logged one absorbed; it fails exactly where the source panics |
| LogDevice.Log.WriteLog | xv6-riscv/kernel/log.c:178-191 | the log slots get the cached blocks; every intermediate disk still recovers to the old contents |
| LogDevice.Log.WriteHead | xv6-riscv/kernel/log.c:102-114 | one block write, encoding the in-memory list |
| LogDevice.Log.ReadHead | xv6-riscv/kernel/log.c:86-97 | the in-memory list is the one encoded on disk |
| LogDevice.Log.InstallTrans | xv6-riscv/kernel/log.c:68-83 | the home blocks end up as the log says; every intermediate disk recovers to the same contents; buffers are unpinned unless recovering |
| LogDevice.Log.Commit | xv6-riscv/kernel/log.c:193-203 | before one write every disk recovers to the old contents, from it on to the whole transaction, which is in place at the end with the log empty |
| LogDevice.Log.RecoverFromLog | xv6-riscv/kernel/log.c:116-123 | every intermediate disk stands for the same contents, which are in place at the end with the log empty |
| LruCache.Unlink | xv6-riscv/kernel/bio.c:128-129 | two pointer writes take a buffer out of the circle |
| LruCache.LinkFront | xv6-riscv/kernel/bio.c:130-133 | four pointer writes put a buffer right after the head |
| LruCache.Bcache.constructor | xv6-riscv/kernel/bio.c:36-53 | one circle through head and all buffers, next and prev inverse, ordered by last move |
| LruCache.Bcache.MoveToFront | xv6-riscv/kernel/bio.c:128-133 | the circle is the old one with the buffer moved to the front |
| LruCache.Bcache.Brelse | xv6-riscv/kernel/bio.c:116-137 | the count drops, and at zero the buffer moves to the front; the list stays one ordered circle |
| LruCache.Bcache.Bpin | xv6-riscv/kernel/bio.c:139-144 | the count rises, the list invariant holds |
| LruCache.Bcache.Bunpin | xv6-riscv/kernel/bio.c:146-151 | the count drops, the list does not move |
| LruCache.Bcache.FindCached | xv6-riscv/kernel/bio.c:66-73 | finds the buffer with a key, or there is none |
| LruCache.Bcache.FindUnused | xv6-riscv/kernel/bio.c:77-87 | of the unreferenced buffers, the one whose last move is oldest, or there is none |
| LruCache.Bcache.Bget | xv6-riscv/kernel/bio.c:58-89 | a hit returns the one buffer with the key; a miss recycles the unreferenced buffer moved longest ago; the panic means no buffer is unreferenced; keys stay unique |
| FsBitmap.BitOfSetBit | xv6-riscv/kernel/fs.c:75-77 | or-ing the mask into its byte sets that bit of the bitmap and no other |
| FsBitmap.BitOfClearBit | xv6-riscv/kernel/fs.c:98-102 | and-ing its complement clears that bit and no other |
| FsOwnership.OwnershipExact | xv6-riscv/kernel/fs.c:382-453 | the set bits of the bitmap are exactly the metadata blocks and the blocks some inode slot names, and no block is named twice |
| FsOwnership.Allocate | xv6-riscv/kernel/fs.c:65-88 | marking a free block used keeps the ownership invariant with that block in transit |
| FsOwnership.Release | xv6-riscv/kernel/fs.c:91-105 | clearing the bit of a block in transit keeps it |
| FsOwnership.Attach | xv6-riscv/kernel/fs.c:388-414 | storing a block in transit into an empty slot keeps it |
| FsOwnership.Detach | xv6-riscv/kernel/fs.c:431-449 | clearing a slot puts its block in transit and keeps it |
| FsInode.Fs.Balloc | xv6-riscv/kernel/fs.c:65-88 | the lowest free block, marked and zeroed; 0 exactly when none is free, with nothing changed |
| FsInode.Fs.Bfree | xv6-riscv/kernel/fs.c:91-105 | the bit is cleared; fails exactly when the block was free already |
| FsInode.Fs.Bmap | xv6-riscv/kernel/fs.c:382-421 | the block behind a file block, allocated if absent; ownership holds whichever allocation fails; a mapped block costs no change |
| FsInode.Fs.Readi | xv6-riscv/kernel/fs.c:471-496 | from an offset within the file, the smaller of n and the bytes left are returned and are those of the content there, or -1 if they do not all fit; beyond the end, or if off + n does not fit 32 bits, 0; nothing is allocated or logged |
| FsInode.Fs.Writei | xv6-riscv/kernel/fs.c:505-539 | content becomes the old with the first r bytes of src spliced in at off; -1 exactly when out of range; other files unchanged; short only when the disk is full or a copy faults; every block changed has been logged |
| FsInode.Fs.WriteCounted | xv6-riscv/kernel/fs.c:505-539 | the blocks a write logs are bitmap blocks, the inode's block, its indirect block and the blocks it spans |
| FsInode.Fs.Itrunc | xv6-riscv/kernel/fs.c:425-453 | the file is empty and owns nothing, other files are unchanged, and "freeing free block" is unreachable; every block changed has been logged |
| FsInode.Fs.Iupdate | xv6-riscv/kernel/fs.c:225-241 | size and addresses are stored in the inode's 64 bytes of its block, which is logged |
| FsDinode.DinodeRoundTrip | xv6-riscv/kernel/fs.c:225-322 | what iupdate stores is what ilock reads back, and the block's other inodes are as they were |
| FsLayout.FileOnDisk | xv6-riscv/kernel/fs.h:37-53 | a file's size and every byte of it are found on the raw disk at the offsets of struct dinode, through ten direct addresses and one indirect block |
| FsLayout.BitOnDisk | xv6-riscv/kernel/fs.h:55-59 | a block is in use exactly if its bit, 8192 to a bitmap block, is set |
| FsDinode.UpdatedInSync | xv6-riscv/kernel/fs.c:225-241 | after iupdate every inode in memory is the one on disk |
| FsContent.ChunkWritten | xv6-riscv/kernel/fs.c:516-528 | writing one chunk of a block splices it into the file's bytes |
| FsContent.ChunkLeavesOthers | xv6-riscv/kernel/fs.c:516-528 | and leaves every other file's bytes alone |
| FsContent.LogCount | xv6-riscv/kernel/fs.c:505-539 | bounds the number of distinct blocks a write logs by the blocks it spans |
| FsFile.ChunkWithinBudget | xv6-riscv/kernel/file.c:155-174 | one filewrite transaction logs at most 7 blocks, below MAXOPBLOCKS, at every offset, on a file system with one bitmap block |
| FsFile.FileRead | xv6-riscv/kernel/file.c:120-124 | the smaller of n and the bytes left at the offset, which advances over them; a negative n is taken as the 32-bit number it stands for; -1 for a file not open for reading |
| FsFile.Lseek | xv6-riscv/kernel/sysfile.c:507-542 | any 32-bit offset, beyond the end too, is stored and returned; -1 and no change exactly if the file is not open for both reading and writing or whence is unknown |
| FsFile.WriteTransaction | xv6-riscv/kernel/file.c:157-173 | one chunk between begin_op and end_op, its blocks within the log's budget |
| FsCrash.EndOp | xv6-riscv/kernel/log.c:146-203 | the blocks a call logged go through the log: before one write every disk stands for the old block map, from it on for the new one; where log_write panics nothing has been written |
| FsCrash.FileWrite | xv6-riscv/kernel/file.c:148-175 | however it is cut into transactions, the effect is that of one write; -1 stands for an incomplete one; stopped after any disk write, the log on disk stands for a consistent file system in which the file holds a whole number of chunks and other files are as before; log_write does not panic on a file system with one bitmap block |
| FsCrash.TruncateLogged | xv6-riscv/kernel/sysfile.c:319-371 | stopped anywhere, truncation has happened as a whole or not at all, and the file system is consistent |
| FsCrash.RunCalls | xv6-riscv/kernel/fs.c:477-539 | after any sequence of reads, writes, seeks and truncations, through any open files on any inodes, no file has a hole; stopped anywhere, the log on disk stands for a consistent file system, one of those between two transactions |
| FsCrash.SameFiles | xv6-riscv/kernel/fs.h:8-22 | disks that agree outside the log hold the same files and are consistent together |
| FsCrash.Mount | xv6-riscv/kernel/log.c:52-123 | booting from such a disk gives a file system with its files, ready for calls; a crash on the way leaves a disk that stands for the same |
| VmMemory.Memory.Kalloc | xv6-riscv/kernel/kalloc.c:68-82 | the first page of the free list leaves it; 0 exactly when the list is empty |
| VmMemory.Memory.Kfree | xv6-riscv/kernel/kalloc.c:46-63 | the page joins the list; fails exactly where the source panics |
| VmMemory.Memory.FreeRange | xv6-riscv/kernel/kalloc.c:33-40 | every whole page of the range ends up free, and no other |
| VmTree.PteRoundTrip | xv6-riscv/kernel/riscv.h:366-372 | PA2PTE and PTE2PA are inverse and the flags survive |
| VmTree.EntryBits | xv6-riscv/kernel/riscv.h:360-371 | an entry made for a page and permissions has the page number from bit 10 up, bit 0 set, and readable, writable, executable and user in bits 1 to 4 as asked |
| VmTree.SameEntryIffSamePage | xv6-riscv/kernel/vm.c:85-103 | two addresses lead to the same leaf entry exactly when they lie in the same page |
| VmTree.LinkKeepsLeaves | xv6-riscv/kernel/vm.c:95-100 | linking in a fresh table changes no translation |
| VmTree.PutLeaf | xv6-riscv/kernel/vm.c:165-165 | writing a leaf entry changes the translation of one page |
| VmSpace.Walk | xv6-riscv/kernel/vm.c:85-103 | the leaf entry of the flat map; tables may be added but no translation changes; with alloc it fails only when no page is free |
| VmSpace.MapPages | xv6-riscv/kernel/vm.c:143-172 | on success exactly the range is added, on failure exactly a prefix of it; the panic means misuse or a page mapped before |
| VmUser.WalkAddr | xv6-riscv/kernel/vm.c:108-126 | the page behind a user address, read off bits 0, 4 and 10 up of its entry; 0 unless it is mapped for the user |
| VmUser.UvmUnmap | xv6-riscv/kernel/vm.c:177-199 | exactly the range is unmapped, and its pages freed if asked; with the range mapped the panics are unreachable |
| VmGrow.UvmDealloc | xv6-riscv/kernel/vm.c:262-274 | exactly the pages beyond the new size are unmapped and freed |
| VmGrow.UvmAlloc | xv6-riscv/kernel/vm.c:232-256 | either the range holds fresh, distinct, zeroed pages, valid, readable and the user's, writable and executable as asked, so that walkaddr finds every address of it; or the mappings are as before and every page is on the free list or in the tree |
| VmCopy.UvmCopy | xv6-riscv/kernel/vm.c:312-340 | the child gets the same contents and flags on its own pages, or has no new mapping and no page is lost; the parent is intact |
| VmCopy.CopyOne | xv6-riscv/kernel/vm.c:320-334 | one page is copied or there was no memory; the two panics do not happen |
| VmFree.FreeWalk | xv6-riscv/kernel/vm.c:278-294 | from a tree without leaf mappings exactly the tables at or below the page are freed; "freewalk: leaf" is unreachable |
| VmFree.UvmFree | xv6-riscv/kernel/vm.c:298-304 | every user page and every table is back on the free list, and no other page is touched |
| VmFree.UvmCreate | xv6-riscv/kernel/vm.c:203-212 | an empty flat map on one page, or 0 when none is free |
| VmFree.ProcPagetable | xv6-riscv/kernel/proc.c:186-216 | a table mapping exactly the trampoline, readable and executable, at the top page and the trapframe, readable and writable, below it, neither the user's; or 0 with every page returned |
| VmFree.ProcFreepagetable | xv6-riscv/kernel/proc.c:220-226 | user pages and tables are freed, trampoline and trapframe pages are not |
| VmPartition.TradeKeepsPartition | xv6-riscv/kernel/kalloc.c:46-82 | free list and the holdings of all processes keep partitioning the pages when one process trades with the free list |
| VmPartition.GrowthTrades | xv6-riscv/kernel/vm.c:232-256 | growing is such a trade; the process sees its old memory and the new pages, all its own |
| VmPartition.ShrinkingTrades | xv6-riscv/kernel/vm.c:262-274 | shrinking is such a trade; the process sees a prefix of its memory |
| VmPartition.FailureTrades | xv6-riscv/kernel/vm.c:243-252 | so is a failed allocation, which may have added tables; the process sees what it saw |
| VmPartition.OthersUnmoved | xv6-riscv/kernel/vm.c:85-340 | a trade leaves every other process's page table, user pages and trapframe sound, its own, and unchanged |
| VmPartition.TradeKeepsSane | xv6-riscv/kernel/vm.c:85-340 | a trade keeps all processes sound and partitioned, and changes one process's view only |
| VmProcs.Procs.AllocProc | xv6-riscv/kernel/proc.c:119-160 | the first free entry gets a trapframe and an address space without user memory; or there was no entry or no memory, every page is back, and no process sees a change |
| VmProcs.Procs.FreeProc | xv6-riscv/kernel/proc.c:165-182 | the process's trapframe, user pages and tables are free again, and no other process sees a change |
| VmProcs.Procs.GrowProc | xv6-riscv/kernel/proc.c:270-286 | the size moves by n and the pages are those it spans: old ones as they were, new ones zero, with flags V, R, W and U; a size below 0 changes nothing; on failure, and for every other process, nothing changes |
| VmProcs.Procs.ForkProc | xv6-riscv/kernel/proc.c:290-315 | the child has the parent's memory and struct trapframe, but for a0, on pages of its own; on failure nothing changes for anyone |
| VmProcs.Procs.RunCalls | xv6-riscv/kernel/proc.c:119-315 | after any sequence of these calls, whichever allocations fail, free list, page tables, user pages and trapframes partition the allocator's pages, and each call did to the processes' views just what it says, to one of them at most |
| VmProcs.AllGoneAllFree | xv6-riscv/kernel/proc.c:165-182 | once no process is left, every page is on the free list |
| VmProcs.FarBelowFrame | xv6-riscv/kernel/proc.c:270-286 | no 32-bit sbrk can reach the trapframe, since a process cannot have more pages than there are |
| ProcInvariant.LocksKept | xv6-riscv/kernel/spinlock.c:21-110 | in every step, interrupts included, the locks a CPU owns are those its pc holds, noff is their number, and interrupts are off while there is one |
| ProcInvariant.LineLocks | xv6-riscv/kernel/proc.c:107-650 | every line takes locks in order, outer ones first, then a process's, then an inner one, and releases only what it holds |
| ProcInvariant.SubjectsKept | xv6-riscv/kernel/proc.c:456-536 | in every step, CPUs work on different processes, whose states their pcs imply |
| ProcParents.UsedKept | xv6-riscv/kernel/proc.c:119-160 | in every step, a process under creation is in state USED and has one creator, which may be running, interrupted or switched out |
| ProcParents.LoadedKept | xv6-riscv/kernel/proc.c:483-525 | in every step, a process's saved context is out of date exactly while a CPU runs it; once it leaves RUNNING that CPU holds its lock |
| ProcParents.FamilyKept | xv6-riscv/kernel/proc.c:290-446 | in every step, parents stay alive, and what exit, wait and fork know under wait_lock, or while preempted in fork, stays true |
| ProcParents.StepKeepsFamily | xv6-riscv/kernel/proc.c:290-633 | locks, subjects, creations and families together are kept by every step |
| ProcSleep.DozeStarts | xv6-riscv/kernel/proc.c:564-591 | a process becomes asleep on a channel only by a step of a CPU that holds the channel's lock |
| ProcSleep.JustWoken | xv6-riscv/kernel/proc.c:595-609 | after wakeup has looked at a process under its lock, it is not asleep on that channel nor about to be |
| ProcSleep.SleepKept | xv6-riscv/kernel/proc.c:564-609 | in every step, whomever a wakeup under way has looked at is awake, on whatever channel |
| ProcWait.StepKeepsInv | xv6-riscv/kernel/proc.c:290-633 | every step of every CPU keeps the whole invariant |
| ProcRuns.RunKeepsInv | xv6-riscv/kernel/trap.c:134-160 | the invariant holds in every state of every interleaving, with device interrupts and preemption at every line without a lock |
| ProcRuns.NoLostWakeup | xv6-riscv/kernel/proc.c:564-609 | when a wakeup is about to return, no process is asleep on its channel or past the point in sleep() where it would miss the wakeup |
| ProcRuns.NoLostExit | xv6-riscv/kernel/proc.c:357-446 | whenever wait_lock is free, no process is asleep in wait() while it has a zombie child |
| ProcProgress.WaitCanCollect | xv6-riscv/kernel/proc.c:413-435 | in every run, a parent in wait() with the lock of a zombie child can take a step that frees the child's entry and changes no other, unless copying the status failed |
| ProcLife.WaitCollects | xv6-riscv/kernel/proc.c:290-446 | there is a run from boot in which init forks and falls asleep in wait(), its child exits and wakes it, and the child's entry is free again |
| ProcProgress.NoCpuStuck | xv6-riscv/kernel/proc.c:107-650 | in every state of every run each CPU has a line to execute that does not panic, and only a lock can keep it waiting |
| ProcProgress.KilledIsAwake | xv6-riscv/kernel/proc.c:614-633 | in every run, when kill() is about to let go of a process it has found, that process is marked killed and is not asleep |
| ProcRuns.ParentIsAlive | xv6-riscv/kernel/proc.c:341-397 | every runnable, running, sleeping or zombie process but init has a parent that is neither unused, being created, nor a zombie |
| ProcRuns.SchedulerExclusivity | xv6-riscv/kernel/proc.c:456-536 | no two CPUs have the same c->proc, and a process whose state has left RUNNING while still a CPU's is locked by that CPU |
| ProcRuns.NoPanic | xv6-riscv/kernel/proc.c:507-525 | the panics of acquire, release, pop_off and sched, and "zombie exit", are unreachable |
| ProcRuns.LineOrder | xv6-riscv/kernel/proc.c:25-29 | every acquire is of a lock that ranks above all its CPU holds |
| ProcRuns.NoDeadlock | xv6-riscv/kernel/spinlock.c:21-43 | whatever lines the CPUs are about to execute, a CPU spinning for a lock waits, through at most two others that spin too, for one that does not spin |
| SleepLock.KernelStepKeepsInv | xv6-riscv/kernel/sleeplock.c:21-52 | every line of the machine and every access to lk->locked keeps holders, flags and sleepers in agreement |
| SleepLock.SleepLockExclusion | xv6-riscv/kernel/sleeplock.c:21-52 | in every interleaving at most one process is between acquiresleep and releasesleep of a lock, and holdingsleep's test is true of exactly that process |
| SleepLife.SleepLockUsed | xv6-riscv/kernel/sleeplock.c:21-41 | there is a run from boot in which a process acquires a sleep lock and releases it |
| SleepLock.NoLostRelease | xv6-riscv/kernel/sleeplock.c:21-41 | while nobody holds a sleep lock or its spinlock, no process is asleep waiting for it |
| VirtioSafety.RingWrites | xv6-riscv/kernel/virtio_disk.c:272-272 | the slot behind the last entry is free, so writing it overwrites no entry not yet read |
| VirtioSafety.RingPublishes | xv6-riscv/kernel/virtio_disk.c:277-277 | moving a 16-bit index adds exactly the entry just written, across wrap-around |
| VirtioSafety.RingReads | xv6-riscv/kernel/virtio_disk.c:312-324 | the slot at a 16-bit read index holds the oldest entry |
| VirtioRuns.StepKeepsInv | xv6-riscv/kernel/virtio_disk.c:215-327 | every step of driver and device keeps table, rings and records consistent |
| VirtioRuns.DescriptorsPartitioned | xv6-riscv/kernel/virtio_disk.c:156-213 | in every run the descriptors are partitioned into clear free ones and disjoint chains of three |
| VirtioRuns.DeviceReadsWhatWasIssued | xv6-riscv/kernel/virtio_disk.c:235-277 | in every run the device finds the oldest request, and the chain it follows is a 16-byte header with the operation issued, the 1024 bytes of the buffer issued, which it writes unless the request is a write, and a status byte it writes |
| VirtioRuns.NoSlotOverwritten | xv6-riscv/kernel/virtio_disk.c:272-277 | in every run, posting overwrites no available entry the device has yet to take, across 16-bit wrap |
| VirtioRuns.ReapClearsItsBuffer | xv6-riscv/kernel/virtio_disk.c:312-324 | a completion clears the flag of the buffer that issued that chain, which was up, and no other |
| VirtioRuns.FinishAfterCompletion | xv6-riscv/kernel/virtio_disk.c:283-289 | an issuer that finds its flag down has been completed |
| VirtioRuns.CompletedOnce | xv6-riscv/kernel/virtio_disk.c:294-327 | no request is completed twice |
| VirtioRuns.NoStatusPanic | xv6-riscv/kernel/virtio_disk.c:316-317 | while the device reports success, virtio_disk_intr does not panic |
| VirtioDrain.AlwaysDrains | xv6-riscv/kernel/virtio_disk.c:215-327 | from every state of every run, driver and device can complete and free all requests under way, until every descriptor is free |
| VirtioDisk.Disk.AllocDesc | xv6-riscv/kernel/virtio_disk.c:156-166 | the first free descriptor, now taken, or -1 exactly when none is free |
| VirtioDisk.Disk.FreeDesc | xv6-riscv/kernel/virtio_disk.c:169-182 | the descriptor is cleared and free; fails exactly where the source panics |
| VirtioDisk.Disk.FreeChain | xv6-riscv/kernel/virtio_disk.c:185-197 | exactly the three descriptors of a request are freed, without panic |
| VirtioDisk.Disk.Alloc3Desc | xv6-riscv/kernel/virtio_disk.c:201-213 | the first three free descriptors, or -1 with the table as it was, exactly when fewer than three are free |
| VirtioDisk.Disk.PostRequest | xv6-riscv/kernel/virtio_disk.c:215-272 | a Post step of the machine whose chain is such a request for sector 2 * blockno, with its head in the next ring slot; or nothing changed and too few descriptors |
| VirtioDisk.Disk.PublishRequest | xv6-riscv/kernel/virtio_disk.c:277-277 | a Publish step of the machine |
| VirtioDisk.Disk.FinishRequest | xv6-riscv/kernel/virtio_disk.c:288-289 | a Finish step of the machine, with no panic in free_desc |
| VirtioDisk.Disk.Intr | xv6-riscv/kernel/virtio_disk.c:294-327 | every completed buffer's flag is cleared and no other; it panics only on a status other than 0 |
| HeapBlocks.CutTiles | xv6-riscv/user/umalloc.c:79-81 | cutting a block in two keeps the blocks a disjoint cover of the memory obtained |
| HeapBlocks.JoinTiles | xv6-riscv/user/umalloc.c:33-41 | joining two touching blocks keeps it |
| HeapBlocks.TotalIsOwned | xv6-riscv/user/umalloc.c:24-90 | the sizes of all blocks add up to the units obtained from sbrk |
| HeapList.JoinNextGood | xv6-riscv/user/umalloc.c:33-37 | after the first join the heap is sound and nothing free touches the end of the freed block |
| HeapList.JoinPrevGood | xv6-riscv/user/umalloc.c:38-42 | after the second join the list is sorted, coalesced and complete again |
| Umalloc.Allocator.FindPlace | xv6-riscv/user/umalloc.c:30-32 | the circular search ends, at the last list entry below the block |
| Umalloc.Allocator.Free | xv6-riscv/user/umalloc.c:24-44 | the units are free again, joined with what they touch; every other block given out is as before; the list stays circular, sorted, disjoint and coalesced |
| Umalloc.Allocator.MoreCore | xv6-riscv/user/umalloc.c:46-61 | at least 4096 units join the free list, or sbrk refused and nothing changed |
| Umalloc.Allocator.Malloc | xv6-riscv/user/umalloc.c:63-90 | a block whose units beyond the header are the fewest that hold nbytes, disjoint from all others; sbrk is called at most once, and only when no free block is large enough; the search ends |
| ShellGrammar.LexSpans | xv6-riscv/user/sh.c:327-370 | the text tokens of a line are exactly its maximal runs of plain characters, in order |
| ShellGrammar.LineWords | xv6-riscv/user/sh.c:406-508 | a tree the grammar gives a line has exactly the line's words, each once |
| ShellDescent.LineSound | xv6-riscv/user/sh.c:406-508 | the tokens that descent consumes stand, in the grammar, for the tree it returns |
| ShellComplete.LineComplete | xv6-riscv/user/sh.c:406-508 | descent finds every tree the grammar gives a line, if its commands have fewer than MAXARGS arguments |
| ShellComplete.DescentDecides | xv6-riscv/user/sh.c:406-508 | descent returns a tree for a whole line if and only if the grammar gives it that tree with few enough arguments |
| ShellParser.Parser.GetToken | xv6-riscv/user/sh.c:327-370 | the next token of the line, with its code and place, and the cursor after it |
| ShellParser.Parser.Peek | xv6-riscv/user/sh.c:372-382 | no token is lost, and the answer tells the next character |
| ShellParser.Parser.ParseRedirs | xv6-riscv/user/sh.c:436-459 | the redirections at the cursor wrapped around the command, the last outermost; fails exactly when a file is missing |
| ShellParser.Parser.ParseBlock | xv6-riscv/user/sh.c:461-475 | agrees, tree, cursor and failure, with descent on the tokens |
| ShellParser.Parser.ParseExec | xv6-riscv/user/sh.c:477-483 | agrees with descent: a block or a simple command |
| ShellParser.Parser.ParseSimple | xv6-riscv/user/sh.c:485-507 | agrees with descent: arguments and redirections in any order, failing at MAXARGS arguments |
| ShellParser.Parser.ParsePipe | xv6-riscv/user/sh.c:423-434 | agrees with descent |
| ShellParser.Parser.ParseLine | xv6-riscv/user/sh.c:406-421 | agrees with descent; parsing ends on every input |
| ShellRedirect.RedirectsAsWritten | xv6-riscv/user/sh.c:436-459 | the tree opens every file as the signs before its name say: `<` to read, one `>` to truncate, two to append |
| ShellCommand.NulTerminate | xv6-riscv/user/sh.c:510-557 | exactly the characters after the words of the tree become NUL |
| ShellCommand.WordSurvives | xv6-riscv/user/sh.c:510-557 | no word's end lies inside another word, so each word is whole and terminated afterwards |
| ShellCommand.ParseCmd | xv6-riscv/user/sh.c:389-404 | a line is accepted exactly when the grammar gives it a tree with few enough arguments, and that tree is the only one; its words are all of the line's, each once; every argument and file name read as a C string is its word; every file is opened as the signs before its name say; a rejected line is unchanged |
| Grep.HereOne | xv6-riscv/user/grep.c:93-94 | a pattern that starts with a single character matches here exactly if that character fits and the rest matches one further on |
| Grep.HereStar | xv6-riscv/user/grep.c:89-90 | a pattern that starts with c* matches here exactly if the rest matches after some run of characters c accepts |
| Grep.MatchHere | xv6-riscv/user/grep.c:85-96 | true exactly if the items of the pattern describe a prefix of the text, all of it before a final $ |
| Grep.MatchStar | xv6-riscv/user/grep.c:99-106 | true exactly if the rest matches after some run of characters c accepts |
| Grep.Match | xv6-riscv/user/grep.c:72-82 | true exactly if the pattern matches the text |
| Grep.MatchesSubstring | xv6-riscv/user/grep.c:72-82 | matching means that some part of the text, at the start for a leading ^, is cut into pieces that fit the items |
| Pipe.Ring.PutByte | xv6-riscv/kernel/pipe.c:95-95 | the byte joins the end of the history; no byte not yet taken is overwritten, across 32-bit wrap |
| Pipe.Ring.TakeByte | xv6-riscv/kernel/pipe.c:123-123 | the oldest byte not yet taken |
| Pipe.Ring.WriteSegment | xv6-riscv/kernel/pipe.c:76-103 | the bytes written are the next of the source, in order, at the end of the history; it sleeps only when the ring is full; -1 only when the read end is closed or the process killed |
| Pipe.Ring.ReadSegment | xv6-riscv/kernel/pipe.c:105-130 | the bytes taken are the oldest, in order; with n > 0 and no fault 0 is returned only for an empty ring with the write end closed |
| Pipe.Ring.Close | xv6-riscv/kernel/pipe.c:58-74 | one end is closed; the pipe goes exactly when both are |
| Pipe.Fifo | xv6-riscv/kernel/pipe.c:76-130 | in every interleaving of segments, whose guards are a ring not full and bytes to take, the bytes taken off are a prefix of the bytes put on, at most PIPESIZE behind |

## Left out

- The type, device numbers, link count and mode of an inode, which iupdate stores beside its size and addresses.
- The inode cache (iget, iput, ialloc), directories, path lookup and link counts.
- sys_chmod, which stores mode bits in the inode type.
- The log machine's buffer locks and the driver's one request per buffer are taken for granted there; SleepLock shows what they rest on, but the machines are not composed.
- SleepLock.MayTake: callers release only sleep locks they hold, as brelse and iunlock check.
- FsCrash.FileWrite: one call at a time. The source drops the inode lock between the transactions of a write, so another writer may come in between, and then only each chunk is one write. LogRuns has calls that overlap and commit together.
- FsCrash.EndOp: log_write is called once for each block, where the source calls it again for a block changed again.
- LogFull.LogWritePanicsExactly: asks for at least two threads.
- LogLife.CommitsToDisk: asks for at least two threads and three buffers.
- FsInode.Fs.Writei: a copy that faults is taken to fault before any byte of its chunk is stored, because the source leaves such a buffer unlogged.
- FsFile.ChunkWithinBudget: assumes a file system no larger than one bitmap block covers, as mkfs makes it.
- LruCache.Bcache.Bunpin: asks for a positive count, where the source would wrap an unsigned one.
- LruCache.Bcache.Bget: asks for a device other than 0, because all buffers start with device 0 and block 0.
- FsInode.Fs.Bmap: asks for a block number below MAXFILE, where the source panics; readi and writei check it.
- VirtioQueue.Post: one request at a time for each buffer is built in, because callers hold the buffer's sleep lock; VirtioDisk.Disk.PostRequest asks for it.
- VmGrow.UvmAlloc: that the new range is not mapped yet and ends below MAXVA is a precondition; VmProcs.Procs.GrowProc discharges it for every process.
- VmGrow.UvmDealloc: that the range is the process's own is a precondition; VmProcs.Procs.GrowProc discharges it.
- VmCopy.UvmCopy: that the parent's range is mapped and apart from the child's pages is a precondition; VmProcs.Procs.ForkProc discharges it.
- VmProcs.Procs.RunCalls: userinit's first page and exec are not among the calls.
- VmSpace.Walk: an address of MAXVA or more is excluded by a precondition, where the source panics.
- VmSpace.MapPages: ranges that reach beyond MAXVA are excluded by a precondition, where walk panics.
- VmUser.UvmUnmap: that the range is aligned and mapped is a precondition; VmUser.UnmapOne has the panics for entries that are not.
- VmMemory.Memory.Kfree: that the page is not on the free list already is a precondition, which the source does not check.
- uvmfirst, uvmclear, copyin, copyout and the kernel's own page table.
- Pids: whether a pid matches in kill is left open, and allocpid is not modelled.
- ProcRuns.NoPanic: "init exiting" is not covered, because init is assumed not to exit: in the source it panics if init's program returns, if init is killed (kill(1) and usertrap's exit(-1)), or if it faults.
- Other nesting of spinlocks than one of the kernel's own locks or wait_lock, beneath it a process's, beneath that an inner one (pid_lock, kmem.lock, ftable.lock, itable.lock, bcache.lock). iput takes a sleep lock's spinlock beneath itable.lock, relying on the reference count not to wait.
- procdump, which takes no locks, and getprocs, which takes those of a kill that finds no match.
- intena is not modelled; once every push_off is undone, interrupts may be on or off.
- VirtioDisk.Disk.Intr: the used index is taken to stand still during the call; VirtioRuns covers a device that keeps completing.
- virtio_disk_init, device registers and memory fences: steps are sequentially consistent.
- Umalloc.Allocator.Malloc: the request is bounded so that its size in bytes fits sbrk's int argument, and memory from sbrk lies above what it gave before.
- The shell's cd, script and run phases, and file modes beyond read, truncate and append.
- Grep's line buffer and file handling.
- Wakeups in the pipe, which only let sleepers look again.
- exec, system call argument fetching, the trap code around interrupts, the console, printf, mkfs and the other user programs.
