# xv6 lab kernels: verified models

These Dafny modules model the parts of the xv6 (RISC-V) lab kernels that hold protocols and data
structures, and prove what those parts are for. Constants such as NBUF, NBUCKET, NDIRECT, NINDIRECT,
BSIZE, NPROC and NCPU are parameters.

| topic | modules | main results |
|---|---|---|
| copy-on-write fork, Sv39 tables, frame counts | Sv39, KernelState, CowKernel, UserMemory, CowFork, CowAccess, AddressSpaces, CowRun | the copy-on-write kernel refines the eager one over all runs in which kalloc succeeds; only copy-on-write pages cost a frame; no frame leaks; counts are exact and never wrap; the three-level table is a flat map |
| hashed buffer cache | BufferCache, BufferCacheProof, BufferCacheRuns, BufferCacheScan, BufferCacheWrites, BufferCacheProgress | one buffer per block, no deadlock, least recently used of all buffers taken, last write read if callers write back, calls end, in every interleaving |
| file contents, block allocator, log bound | FileState, FileTruncation, FileSystem, FullLog | a file is a byte sequence; every block has one owner; what changes is logged; one transaction fits the log, and can fill it |
| processes and scheduler | Processes, ProcessProof, ProcessRuns, ProcessCalls, ProcessScans, ProcessProgress | one CPU per process, no lost wakeup, one reap per exit, no deadlock; why wait, fork and kill return, and that calls end |
| user-level malloc | UserHeap, UserMalloc | one ordered ring, units conserved, morecore at most once |
| per-CPU page allocator | PercpuPages, PercpuRuns | no double free at boot, every page in one place in every run |
| barrier | Barrier | rounds match iterations, every run ends; exactly what a spurious wakeup breaks |
| inode table | InodeTable, InodePanics | entries unique, counted and equal to the disk in every interleaving; exactly which iget leads to a panic of ilock |
| directories and link counts | LinkCounts, LinkOps | nlink is the number of naming entries; directories form a tree |

## How to read the models

Sequential code is a class whose methods update its fields (`CowKernel.Kernel`, `FileSystem.Disk`,
`UserMalloc.Heap`, `PercpuPages.Memory`, `LinkOps.FileTree`). The raw representation (page-table words,
index blocks, header words, directory slots) is what the methods change; an invariant ties it to an
abstract value (a flat map, a byte sequence, a sequence of blocks, a tree), and the contracts speak
about that value. Concurrent code is a step function over a state with one program counter per
participant; a run is any sequence of enabled steps from the boot state, and the results are about every
state of every run. History variables (`fails`, `owner`, `ring`, `lent`, `got`, `lists`, `truth`, `stray`, `sure`, `exits`, `reaps`, `where`, `up`,
`depth`, `seen`) record what happened and steer nothing.

A panic of the kernel that the invariant excludes is a precondition of the method, proved at every
call; a panic that can happen (no free block, no free buffer, init exiting) is a result or a stuck place.

Results that are not what a reader would expect of the code:

- `itrunc` exchanges `bp` and `bi` in its double-indirect part (xv6-lab-filesystem/fs.c:459, 463). The model
  follows the evident intention, outer table through `bp` and inner table through `bi`.
- `writei` that stops at an unreadable source address has already changed bytes it does not report.
  `FileSystem.Disk.Writei` and `InterruptedWrite` say exactly when it has not, `ExactForAll` says it from
  the numbers alone, and `InterruptedWriteSpills` shows a case on a disk.
- The block that such a `writei` stopped in is released changed, unlogged and unwritten
  (xv6-lab-filesystem/fs.c:542-545). The buffer cache keeps all its other promises; the last contents of a
  block can be lost exactly after such a release (`BufferCacheRuns.StrayStep`, `ClaimLosesStray`).
- `iget` accepts the number of a freed inode, and a walk through `..` of a removed directory whose parent was
  removed too gives it one (xv6-lab-filesystem/fs.c:691); `ilock` then panics.
  `InodePanics.NoPanicInIlock` says exactly which `iget` is safe, and `RemovedParentPanics` shows a run.
- `barrier` calls the condition wait without a loop. Its promise holds if the wait returns only after a
  broadcast, and `Barrier.SpuriousBreaks` says exactly which other returns break it.
- `create`, `link` and `symlink` do not refuse a directory that has been removed while somebody is in it.
  Counts and tree stay right exactly for calls in directories that are still linked
  (`LinkCounts.FileNeedsLinkedParent`, `LinkNeedsLinkedParent`, `DirNeedsLinkedParent`), and
  `LinkOps.RemovedDirBreaks` shows a case.

## Model

| member | source | states |
|---|---|---|
| `Sv39.EncodeFields` | xv6-labs-cow/riscv.h:349-354 | A page-table entry built from an address and flags gives both back: PTE2PA, PTE_FLAGS and every single flag bit. |
| `Sv39.DirFields` | xv6-labs-cow/riscv.h:349-354 | An entry that points to a lower table is valid, has no leaf flag, and gives the table's address back. |
| `Sv39.ShareBits` | xv6-labs-cow/vm.c:314-318 | Clearing PTE_W and setting PTE_COW in the raw entry is exactly the flag change of a shared page, whatever the flags were. |
| `Sv39.SplitBits` | xv6-labs-cow/trap.c:50-50 | The raw flag word of the split (COW cleared, W set) is exactly the flags of a private writable page. |
| `Sv39.PathOfPage` | xv6-labs-cow/riscv.h:356-365 | For va < MAXVA the three PX indices of va are the path of page va / PGSIZE. |
| `Sv39.VpnSlots` | xv6-labs-cow/riscv.h:356-359 | Three indices below 512 name one page number, and that page number gives the three indices back: a distinct slot per page. |
| `KernelState.RefsBounded` | xv6-labs-cow/kalloc.c:26-30 | A frame has at most one user entry per table, so its entries number at most the tables. |
| `KernelState.AllocKeeps` | xv6-labs-cow/kalloc.c:82-99 | kalloc keeps the invariant (count = entries + kernel owner; count 0 exactly on the free list, once; raw tables = flat map) and no table looks different. |
| `KernelState.DropKeeps` | xv6-labs-cow/kalloc.c:113-124 | Dropping a reference keeps the invariant; the count was at least 1, so uint8 does not wrap below 0. |
| `KernelState.IncKeeps` | xv6-labs-cow/kalloc.c:101-111 | Adding a reference below 255 keeps the invariant. |
| `KernelState.MapLeafKeeps` | xv6-labs-cow/vm.c:137-160 | Entering one leaf in the raw table is one update of the flat map of that table and of no other. |
| `KernelState.CutRefKeeps` | xv6-labs-cow/vm.c:165-187 | Removing one leaf removes one page of one flat map and moves its reference to the caller. |
| `KernelState.ReflagKeeps` | xv6-labs-cow/vm.c:308-324 | Making an entry read-only and copy-on-write changes what no table shows. |
| `KernelState.WriteUserKeeps` | xv6-labs-cow/trap.c:38-61 | A store through a writable entry changes that page of that table and nothing else, because no writable frame is shared. |
| `KernelState.AddDirKeeps` | xv6-labs-cow/vm.c:85-96 | A fresh table page hung into an empty directory slot changes no mapping. |
| `KernelState.CutNodeKeeps` | xv6-labs-cow/vm.c:266-282 | Taking a childless table page out of the tree keeps the invariant up to the parent's slot. |
| `CowKernel.Kernel.AddFrame` | xv6-labs-cow/kalloc.c:44-48 | One round of freerange: the frame is on the free list once, with count 0. |
| `CowKernel.Kernel.Freerange` | xv6-labs-cow/kalloc.c:39-49 | All n frames become free, nothing else changes. |
| `CowKernel.Kernel.Increfcnt` | xv6-labs-cow/kalloc.c:101-111 | The count as uint8: plus 1 modulo 256. |
| `CowKernel.Kernel.Decrefcnt` | xv6-labs-cow/kalloc.c:113-124 | The count as uint8: minus 1 modulo 256, and its new value. |
| `CowKernel.Kernel.Kalloc` | xv6-labs-cow/kalloc.c:79-99 | The first free frame with one reference, or 0 and no change exactly if none is free; the failure counter counts exactly those calls. |
| `CowKernel.Kernel.Kfree` | xv6-labs-cow/kalloc.c:55-77 | One reference less; the frame becomes free exactly when it was the last one. |
| `CowKernel.Kernel.NewTable` | xv6-labs-cow/vm.c:89-94 | A new zeroed table page at the next level, or 0 and no change if no frame is free. |
| `CowKernel.Kernel.Walk` | xv6-labs-cow/vm.c:80-98 | Reaches the slot of va and no other; allocates at most two directories on the path, changes no mapping, fails only for lack of a directory (and, if it may allocate, only after a failed kalloc with fewer than two free frames). |
| `CowKernel.Kernel.MapPage` | xv6-labs-cow/vm.c:146-157 | One round of mappages: exactly the named page is mapped, or nothing looks different and memory is exhausted. |
| `CowKernel.Kernel.UnmapPage` | xv6-labs-cow/vm.c:172-185 | One round of uvmunmap with do_free: exactly the named page disappears and its frame loses one reference. |
| `CowKernel.Kernel.Mappages` | xv6-labs-cow/vm.c:137-160 | Exactly the pages of the range are mapped to consecutive frames; failure means exactly one failed kalloc and fewer than two free frames per page, and never happens if the slots already exist. |
| `CowKernel.Kernel.Uvmunmap` | xv6-labs-cow/vm.c:165-187 | Exactly the named pages disappear from one flat map. |
| `UserMemory.StoreConcat` | xv6-labs-cow/vm.c:353-367 | Two stores one after the other are one store of the joined bytes. |
| `UserMemory.StoreInPage` | xv6-labs-cow/vm.c:359-362 | memmove into one frame is a store at the virtual address. |
| `UserMemory.LoadAfterStore` | xv6-labs-cow/vm.c:353-367 | A load returns the stored bytes inside the range and the old ones outside. |
| `CowFork.ShareEntry` | xv6-labs-cow/vm.c:309-318 | The parent's entry becomes read-only and copy-on-write; nothing looks different. |
| `CowFork.SharePage` | xv6-labs-cow/vm.c:308-324 | One round of the copy-on-write uvmcopy: both entries name the parent's frame read-only and copy-on-write, no other entry changes, the copy shows the parent's page, nothing else looks different, also after failure. |
| `CowFork.ShareCount` | xv6-labs-cow/vm.c:319-323 | With at most 255 tables the count is below 255 before it is raised, so uint8 never wraps. |
| `CowFork.Uvmcopy` | xv6-labs-cow/vm.c:300-330 | The copy shows exactly what the original shows, through the original's own frames, read-only and copy-on-write in both; no other entry changes and no other table looks different; on failure nothing looks different, exactly one kalloc has failed and there were fewer than two free frames per page. |
| `CowFork.CopyPage` | xv6-lab-pagetables/kernel/vm.c:308-322 | One round of the eager uvmcopy, with the same visible effect; failure means one failed kalloc and fewer than three free frames. |
| `CowFork.EagerUvmcopy` | xv6-lab-pagetables/kernel/vm.c:300-328 | The eager uvmcopy has the same visible outcome as the copy-on-write one and shares no page; failure means one failed kalloc and fewer than three free frames per page. |
| `CowAccess.SplitPage` | xv6-labs-cow/trap.c:43-59 | The table gets its own writable copy in the first free frame, no other entry changes, nothing looks different; 0 exactly if no frame is free. |
| `CowAccess.Unmapped` | xv6-labs-cow/trap.c:52-57 | After the unmap the slot still exists and the fresh frame is untouched: the remap cannot fail. |
| `CowAccess.Walkcowaddr` | xv6-labs-cow/trap.c:20-62 | A writable frame behind every accessible address: the frame already there, with no change at all, if the entry is writable, and a private copy if it is copy-on-write; 0 exactly for inaccessible addresses and for copy-on-write pages when no frame is free; nothing looks different. |
| `CowAccess.Walkaddr` | xv6-labs-cow/vm.c:103-121 | Non-zero exactly for the addresses a user may access; no change. |
| `CowAccess.WriteFrame` | xv6-labs-cow/vm.c:359-362 | memmove into the writable frame is a store in one space and in no other. |
| `CowAccess.CopyChunk` | xv6-labs-cow/vm.c:353-366 | One round of copyout: the bytes that fit in the page, nothing exactly if the page is not accessible or is copy-on-write and no frame is free. |
| `CowAccess.Copyout` | xv6-labs-cow/vm.c:348-368 | Stores a prefix of src in one space only: all of it, or up to the first inaccessible byte, or up to a copy-on-write page for which no frame is left, after at least as many copy-on-write pages as there were free frames; exactly the copy-on-write pages written to get frames of their own. |
| `CowAccess.Copyin` | xv6-labs-cow/vm.c:373-393 | Succeeds exactly on accessible ranges and returns the bytes shown there. |
| `CowAccess.UserStore` | xv6-labs-cow/trap.c:115-125 | A store with its fault: it takes effect in one space only, is refused exactly where the page is not accessible, and runs out of memory exactly if the page is copy-on-write and no frame is free. |
| `AddressSpaces.Freewalk` | xv6-labs-cow/vm.c:266-282 | Recursive free of a table: every table page below goes back exactly once, no mapping changes. |
| `AddressSpaces.FreeNode` | xv6-labs-cow/vm.c:281-281 | The emptied table page goes back to the allocator. |
| `AddressSpaces.Uvmcreate` | xv6-labs-cow/vm.c:191-200 | A new empty table, or 0 and no change exactly if no frame is free. |
| `AddressSpaces.ZeroMapped` | xv6-labs-cow/vm.c:228-241 | One round of uvmalloc: one zeroed page more, or nothing looks different, one kalloc has failed and fewer than three frames were free. |
| `AddressSpaces.Uvmalloc` | xv6-labs-cow/vm.c:220-244 | The new pages are zero, the old ones stay; on failure nothing looks different, one kalloc has failed and fewer than three frames per page were free. |
| `AddressSpaces.Uvminit` | xv6-labs-cow/vm.c:205-216 | One zeroed page at 0 that starts with the given bytes, or nothing looks different and one kalloc has failed. |
| `AddressSpaces.Uvmdealloc` | xv6-labs-cow/vm.c:250-262 | Exactly the pages between the two sizes disappear. |
| `AddressSpaces.Uvmfree` | xv6-labs-cow/vm.c:286-292 | The table disappears, no other looks different, each of its table pages is free afterwards. |
| `CowRun.RunsAgree` | xv6-labs-cow/vm.c:300-330 | In the private-memory description every run without a memory shortage has one outcome. |
| `CowRun.Machine.Step` | xv6-labs-cow/vm.c:300-330 | One spawn, fork, load, store, copyout, growth, shrinking or exit is explained by private memories. It reports a shortage exactly when one kalloc failed, only where it would otherwise succeed, and only with fewer free frames than a stated number; a store or copyout only at a page that is copy-on-write, a store at such a page whenever no frame is free, and never in the eager machine. No frame appears or vanishes. |
| `CowRun.Machine.DoSpawn` | xv6-lab-syscalls/proc.c:226-248 | userinit: the first process, with one page that starts with its code. |
| `CowRun.Machine.Run` | xv6-labs-cow/vm.c:300-330 | Every sequence of operations from boot on, with either fork, is explained by private memories, and reports as many shortages as kallocs failed; with the eager fork no store runs out of memory; when the last process is gone every frame is free again. |
| `CowRun.NothingLeaks` | xv6-labs-cow/vm.c:266-292 | In every state between operations each frame is free, a page of a live table, or named by an entry. |
| `CowRun.AllReturned` | xv6-labs-cow/vm.c:286-292 | Without processes the free list holds every frame, each once. |
| `CowRun.RunBoth` | xv6-lab-pagetables/kernel/vm.c:300-328 | Refinement: over any operations in which every kalloc of both kernels succeeds, the copy-on-write machine and the eager machine return the same results and show the same bytes. |
| `BufferCacheRuns.InitInv` | xv6-lab-locks/bio.c:39-62 | The state after binit satisfies the invariant. |
| `BufferCacheProof.LookupInv` | xv6-lab-locks/bio.c:67-111 | Both lookups of bget keep the invariant, the second one although it walks the list under the global lock only. |
| `BufferCacheProof.ScanInv` | xv6-lab-locks/bio.c:113-148 | The scan for the least recently used free buffer keeps the invariant while it changes bucket locks. |
| `BufferCacheProof.MoveInv` | xv6-lab-locks/bio.c:150-175 | Unlinking, moving and re-labelling the victim keep the invariant, also while it is on no list. |
| `BufferCacheProof.UseInv` | xv6-lab-locks/bio.c:177-234 | bread, bwrite, brelse, bpin and bunpin keep the invariant, also a last brelse of a buffer that was changed and not written. |
| `BufferCacheProof.StepInv` | xv6-lab-locks/bio.c:67-234 | Every step of every handle keeps the invariant. |
| `BufferCacheRuns.RunInv` | xv6-lab-locks/bio.c:39-234 | The invariant holds in every state of every interleaving. |
| `BufferCacheRuns.EnabledMoves` | xv6-lab-locks/bio.c:67-234 | Every step that the code can take in a state of a run belongs to a run: the runs leave nothing out. |
| `BufferCacheRuns.OneBufferPerBlock` | xv6-lab-locks/bio.c:67-175 | No block of a real device is cached twice, and every buffer outside the hand-over is on the chain of bucket blockno % NBUCKET and on no other. |
| `BufferCacheRuns.StableIdentity` | xv6-lab-locks/bio.c:152-168 | A buffer with refcnt > 0 never changes its block. |
| `BufferCacheRuns.ReadsLastWrite` | xv6-lab-locks/bio.c:177-189 | In every run bread returns a locked valid buffer of the block asked for, with the last contents written, whoever read it from disk, unless the block is stray. |
| `BufferCacheRuns.DiskUpToDate` | xv6-lab-locks/bio.c:191-218 | In every run a block that no referenced buffer holds is up to date on disk, unless it is stray. |
| `BufferCacheRuns.StrayStep` | xv6-lab-locks/bio.c:202-218 | A block becomes stray only when the last reference to its buffer is dropped while the buffer differs from the disk. |
| `BufferCacheRuns.CleanRunsAreSafe` | xv6-lab-locks/bio.c:177-218 | In a run without such a release no block is stray. |
| `BufferCacheRuns.ClaimLosesStray` | xv6-lab-locks/bio.c:150-168 | When the buffer of a stray block is claimed, its contents are in no valid buffer and not on disk. |
| `BufferCacheRuns.ExitsHoldNothing` | xv6-lab-locks/bio.c:79-107 | Whoever is outside bget, brelse, bpin and bunpin holds no spinlock. |
| `BufferCacheRuns.TwoBucketsNeedGlobal` | xv6-lab-locks/bio.c:118-145 | Only the holder of the global lock ever holds two bucket locks. |
| `BufferCacheRuns.NoCyclicWait` | xv6-lab-locks/bio.c:72-173 | No reachable state has a cycle of waits for spinlocks or sleep-locks between handles, of any length. |
| `BufferCacheRuns.VictimIsLeastRecent` | xv6-lab-locks/bio.c:115-168 | The buffer that is claimed is free and no later used than any buffer the scan saw free. |
| `BufferCacheScan.OthersLeave` | xv6-lab-locks/bio.c:67-234 | While a handle holds a bucket's lock, nobody else changes its chain or the counts, times and blocks of its buffers. |
| `BufferCacheScan.MissMeansAbsent` | xv6-lab-locks/bio.c:74-95 | bget leaves its bucket for the global lock only if no buffer of the bucket carries the block. |
| `BufferCacheScan.ScanExamines` | xv6-lab-locks/bio.c:113-145 | In every run the scan has examined every buffer of the buckets it has finished, each under its bucket's lock and since it took the global lock. |
| `BufferCacheScan.PanicMeansAllBusy` | xv6-lab-locks/bio.c:146-148 | bget panics only if every buffer of the cache was in use when the scan looked at it, during this call. |
| `BufferCacheScan.NoPanicWithFreeBuffer` | xv6-lab-locks/bio.c:113-148 | A handle does not panic if some buffer is free whenever that handle has the global lock. |
| `BufferCacheScan.VictimAmongAll` | xv6-lab-locks/bio.c:113-168 | The buffer taken is the least recently used of all buffers: each was examined during this call and was in use then or used no earlier. |
| `BufferCacheWrites.TimeOfLastUse` | xv6-lab-locks/bio.c:211-215 | A buffer's time changes only when its last reference is dropped, and is the clock at that moment. |
| `BufferCacheWrites.DiskStep` | xv6-lab-locks/bio.c:191-198 | bwrite puts the buffer's contents on its block of the disk and changes no other block; no other step changes the disk. |
| `BufferCacheWrites.DiligentRuns` | xv6-lab-locks/bio.c:177-218 | If every caller writes back what it has set before it releases, then in every interleaving no release leaves the disk behind, no block is stray, and every bread shows the last contents set for its block. |
| `BufferCacheWrites.RunIsTrace` | xv6-lab-locks/bio.c:67-234 | Every run is one of callers' actions. |
| `BufferCacheWrites.BlockAskedFor` | xv6-lab-locks/bio.c:67-189 | The block a handle works on, and whose buffer bread gives it, is the one it was last called for. |
| `BufferCacheWrites.PinStep` | xv6-lab-locks/bio.c:220-234 | bpin and bunpin change the count of the caller's buffer by one and nothing else does to its pins. |
| `BufferCacheProgress.StepNearer` | xv6-lab-locks/bio.c:67-218 | Every step of a handle brings bread, and then brelse, nearer to its end. |
| `BufferCacheProgress.OthersDoNotDelay` | xv6-lab-locks/bio.c:67-218 | No step of another handle takes it back. |
| `BufferCacheRuns.CandidateStaysFree` | xv6-lab-locks/bio.c:118-145 | During the scan the candidate stays free because its bucket stays locked. |
| `FileState.DataSlotInjective` | xv6-lab-filesystem/fs.h:27-31 | Different blocks of a file use different slots of the tree. |
| `FileState.SlotsApart` | xv6-lab-filesystem/fs.c:377-426 | Two slots never hold the same block. |
| `FileState.AddrAfter` | xv6-lab-filesystem/fs.c:383-425 | Attaching a block fills exactly one slot of one inode. |
| `FileState.AttachKeeps` | xv6-lab-filesystem/fs.c:377-426 | Attaching a free block keeps ownership, bitmap and absence of holes, and changes no byte of any file. |
| `FileState.PutByte` | xv6-lab-filesystem/fs.c:540-546 | Writing a data block changes exactly the bytes of that block of that file. |
| `FileState.PutKeeps` | xv6-lab-filesystem/fs.c:540-546 | Writing a data block keeps the invariant: it moves no pointer. |
| `FileState.ResizeKeeps` | xv6-lab-filesystem/fs.c:550-551 | Growing the size over mapped bytes leaves no hole. |
| `FileSystem.Disk.Balloc` | xv6-lab-filesystem/fs.c:64-86 | The first free block, marked and zeroed; 0 exactly if every bit is set. |
| `FileSystem.Disk.Bfree` | xv6-lab-filesystem/fs.c:89-103 | Exactly one bit is cleared; the block must be in use. |
| `FileSystem.Disk.AllocHere` | xv6-lab-filesystem/fs.c:384-385 | A block for an empty slot of the inode itself; none exactly if every block is in use. |
| `FileSystem.Disk.AllocEntry` | xv6-lab-filesystem/fs.c:396-399 | A block for an empty entry of an index block, which is logged; none exactly if every block is in use. |
| `FileSystem.Disk.Entry` | xv6-lab-filesystem/fs.c:394-400 | The entry of an index block, allocated only if it was missing; none only if every block is in use. |
| `FileSystem.Disk.Here` | xv6-lab-filesystem/fs.c:390-393 | A slot of the inode, allocated only if it was missing; none only if every block is in use. |
| `FileSystem.Disk.Bmap` | xv6-lab-filesystem/fs.c:377-426 | The block of every file block, at all three levels; what was mapped neither moves nor changes, a mapped block is found without allocating or logging, every block taken or changed is logged with its bit, and none is found only if every block is in use. |
| `FileSystem.Disk.Readi` | xv6-lab-filesystem/fs.c:497-519 | Exactly the matching slice of the byte sequence; nothing is allocated or logged, although bmap may allocate. |
| `FileSystem.Disk.PutAt` | xv6-lab-filesystem/fs.c:540-547 | One block of a write: the bytes land at their offset and nowhere else, unless every block is in use; every changed block is logged, except this one if its copy failed. |
| `FileSystem.Disk.Piece` | xv6-lab-filesystem/fs.c:539-548 | One round of the write loop, with the blocks logged so far counted. |
| `FileSystem.Disk.WriteLoop` | xv6-lab-filesystem/fs.c:539-548 | The loop: what was copied, what is reported, and the blocks logged; it stops early only if every block is in use. |
| `FileSystem.Disk.Writei` | xv6-lab-filesystem/fs.c:528-559 | The file becomes the old contents with the readable source laid over them from off, the result is the reported count, and the file is the promised one exactly if nothing was spilled; other files stay, the panic needs a full bitmap. Every changed data, index and bitmap block and the inode are logged, the block an interrupted copy stopped in perhaps excepted; with the single-indirect tree a request of k blocks logs at most 2k + 4 blocks. |
| `FileSystem.Disk.Transaction` | xv6-lab-mmap/file.c:157-167 | One transaction of filewrite: -1 and no change exactly if the range is refused, otherwise the reported count and what reached the file; everything changed is logged, within 2k + 4 blocks; it fails only if every block is in use. |
| `FileSystem.Disk.FileWrite` | xv6-lab-mmap/file.c:148-175 | Returns the length exactly if it is 0 or the offset is within the file, the end within the largest file and all bytes readable, and otherwise -1; the offset moves, and bytes reach the file, by an explicit function of size, offset, length and readable bytes. No transaction passes more than MAXOPBLOCKS blocks to log_write with the single-indirect tree; it fails only if every block is in use. |
| `FileSystem.StopsHere` | xv6-lab-mmap/file.c:155-173 | The piece at which filewrite stops, refused or interrupted, is the one that the closed form of the moved offset names. |
| `FileSystem.OverlayExact` | xv6-lab-filesystem/fs.c:528-559 | A complete write replaces exactly content[off..off+n] and extends the file if needed. |
| `FileSystem.OverlayMore` | xv6-lab-mmap/file.c:155-173 | The transactions of one filewrite add up to one write. |
| `FileSystem.InterruptedWrite` | xv6-lab-filesystem/fs.c:542-545 | The file that an interrupted write leaves is the promised one if and only if the bytes copied past the reported ones lie past the end of the file or repeat what was there. |
| `FileSystem.ExactForAll` | xv6-lab-filesystem/fs.c:539-551 | From the numbers alone: a write is exact for all contents if and only if all of it is readable, or the readable part ends at a block boundary or is empty, or off is the size, or the block boundary before off + readable is at or past the size. |
| `FileSystem.Reported` | xv6-lab-filesystem/fs.c:539-558 | The count writei returns, as a function of offset, length, readable bytes and block size. |
| `FileSystem.SmallFile` | xv6-lab-filesystem/fs.c:528-559 | A disk with two-byte blocks and a file that holds [7, 7], made by writei. |
| `FileSystem.InterruptedWriteSpills` | xv6-lab-filesystem/fs.c:542-545 | writei on that file with one of two bytes readable returns 0 and turns [7, 7] into [1, 7]. |
| `FileSystem.CountNext` | xv6-lab-mmap/fs.c:497-506 | Each further block of a write adds at most one data block, one bitmap block and once the index block; an unaligned first block exists already. |
| `FileSystem.LogBound` | xv6-lab-mmap/fs.c:377-405 | At most k + 1 data, 1 index, k + 1 bitmap and 1 inode block, and 2k + 4 together. |
| `FullLog.LogsAllTen` | xv6-lab-mmap/file.c:148-157 | The bound is reached: on a disk that CrowdedDisk makes and that satisfies the invariant, writing the largest piece that filewrite makes with MAXOPBLOCKS 10 logs exactly ten blocks. |
| `FullLog.LogsTen` | xv6-lab-mmap/fs.c:377-405 | Whoever leaves that file with its new contents and logs what changed has logged at least ten blocks. |
| `FileTruncation.FreeReady` | xv6-lab-filesystem/fs.c:89-103 | bfree cannot panic during itrunc: the block of a slot not yet given back has its bit set. |
| `FileTruncation.FreeKeeps` | xv6-lab-filesystem/fs.c:437-475 | Giving back one block keeps ownership of all the others. |
| `FileTruncation.ClearKeeps` | xv6-lab-filesystem/fs.c:437-475 | Clearing a number in the inode is safe once everything below it was given back. |
| `FileTruncation.TruncEnd` | xv6-lab-filesystem/fs.c:477-478 | At the end the bitmap has lost exactly the inode's blocks and the invariant holds again. |
| `FileSystem.Disk.FreeSlot` | xv6-lab-filesystem/fs.c:437-442 | One bfree of itrunc, with its bitmap block logged. |
| `FileSystem.Disk.FreeTable` | xv6-lab-filesystem/fs.c:447-450 | The loop over one index block gives back every block it names. |
| `FileSystem.Disk.ClearTop` | xv6-lab-filesystem/fs.c:453-454 | One number of the inode set to 0. |
| `FileSystem.Disk.TruncDirect` | xv6-lab-filesystem/fs.c:437-442 | The direct blocks. |
| `FileSystem.Disk.TruncIndirect` | xv6-lab-mmap/fs.c:423-433 | The single-indirect tree. |
| `FileSystem.Disk.TruncDouble` | xv6-lab-filesystem/fs.c:457-475 | The double-indirect tree, read as outer table through bp and inner table through bi. |
| `FileSystem.Disk.Itrunc` | xv6-lab-filesystem/fs.c:430-479 | The file is empty, exactly its blocks are free again, every other file is unchanged, no bfree panics; the log gains exactly the bitmap blocks of those blocks and the inode's block. |
| `ProcessProof.ForkStep` | xv6-lab-syscalls/proc.c:273-321 | Every step of fork and allocproc keeps the invariant. |
| `ProcessProof.ExitStep` | xv6-lab-syscalls/proc.c:326-376 | Every step of reparent, wakeup and exit keeps the invariant. |
| `ProcessProof.WakeInv` | xv6-lab-syscalls/proc.c:561-575 | wakeup(q) leaves q neither asleep on the channel nor about to sleep once it has passed q's entry. |
| `ProcessProof.WaitStep` | xv6-lab-syscalls/proc.c:386-430 | Every step of wait and of the first half of its sleep keeps the invariant. |
| `ProcessProof.OtherStep` | xv6-lab-syscalls/proc.c:497-599 | Every step of sleep, kill, yield and forkret keeps the invariant. |
| `ProcessProof.SchedInv` | xv6-lab-syscalls/proc.c:440-467 | The scheduler's lock and release steps keep the invariant. |
| `ProcessProof.Dispatchable` | xv6-lab-syscalls/proc.c:451-458 | A runnable process whose lock the scheduler has taken is on no CPU. |
| `ProcessProof.SwitchOutInv` | xv6-lab-syscalls/proc.c:477-494 | swtch into the scheduler keeps the invariant. |
| `ProcessProof.StepInv` | xv6-lab-syscalls/proc.c:100-599 | Every step of every CPU keeps the invariant. |
| `ProcessRuns.RunInv` | xv6-lab-syscalls/proc.c:226-599 | The invariant holds in every state of every run, for any number of CPUs and processes. |
| `ProcessRuns.RunsOnOneCpu` | xv6-lab-syscalls/proc.c:440-526 | No process is on two CPUs, c->proc names the one that is, and nobody is about to switch to a process whose registers are not saved yet. |
| `ProcessRuns.RunningSomewhere` | xv6-lab-syscalls/proc.c:450-467 | A RUNNING process is on exactly one CPU, or about to be switched to by exactly one. |
| `ProcessRuns.SchedNeverPanics` | xv6-lab-syscalls/proc.c:482-489 | At every swtch the thread holds its own lock and no other and has left RUNNING. |
| `ProcessRuns.LockHandedOver` | xv6-lab-syscalls/proc.c:451-464 | p->lock spans the switch: the CPU holds it from before swtch into p until after swtch back. |
| `ProcessRuns.ParentsAlive` | xv6-lab-syscalls/proc.c:326-381 | Every parent is alive, in every reachable state; everybody but init who has started has a parent. |
| `ProcessRuns.NoLostWakeup` | xv6-lab-syscalls/proc.c:386-430 | Whenever wait_lock is free, nobody asleep in wait, or past releasing wait_lock in order to sleep, before or after its swtch, has a ZOMBIE child. |
| `ProcessRuns.OneReapPerExit` | xv6-lab-syscalls/proc.c:371-416 | Each exit status is handed out at most once, unchanged, and a zombie keeps it until then. |
| `ProcessRuns.ReapedByParent` | xv6-lab-syscalls/proc.c:397-416 | A status is collected by the parent at that time, from a zombie whose stack no CPU uses any more. |
| `ProcessRuns.NoCyclicWait` | xv6-lab-syscalls/proc.c:100-599 | No chain of CPUs spinning on each other's locks closes. |
| `ProcessCalls.OnlyWakeupOrKill` | xv6-lab-syscalls/proc.c:559-599 | In every run only wakeup on its channel or kill ends a process's sleep, only kill marks it, only reparent moves it to init, only the scheduler starts it. |
| `ProcessCalls.WaitReturns` | xv6-lab-syscalls/proc.c:386-430 | In every run wait returns only because it has collected a zombie child, with that child's number and status; or the status of one could not be copied out; or it is killed and no child is a zombie; or it has no child. |
| `ProcessCalls.ZombieIsReaped` | xv6-lab-syscalls/proc.c:403-416 | A thread in wait that meets a zombie child and can copy its status out collects it and frees the entry. |
| `ProcessCalls.WaitGoesOn` | xv6-lab-syscalls/proc.c:394-430 | Nothing else leads out of wait: a woken waiter scans again. |
| `ProcessScans.OwnPc` | xv6-lab-syscalls/proc.c:272-430 | Each step of a thread: a call starts with its argument, the loops go on by one past an entry they have looked at, exit keeps its status and does not return, fork returns only with a full table, without memory, or with a runnable child, sleep sleeps on its channel, an interrupt is transparent. |
| `ProcessScans.TableWasFull` | xv6-lab-syscalls/proc.c:109-117 | When allocproc gives up it has found every entry in use, under its lock, during this fork. |
| `ProcessScans.NobodyToKill` | xv6-lab-syscalls/proc.c:585-598 | When kill gives up it has found every entry to be another process, under its lock, during this call. |
| `ProcessScans.EverybodyWoken` | xv6-lab-syscalls/proc.c:562-575 | When wakeup is through it has left every other entry awake or asleep on another channel. |
| `ProcessScans.KillMarks` | xv6-lab-syscalls/proc.c:587-594 | kill marks the process it finds and ends its sleep. |
| `ProcessScans.StatusIsArgument` | xv6-lab-syscalls/proc.c:342-374 | In every run each recorded status is the one its process passed to exit. |
| `ProcessScans.SchedulerOrder` | xv6-lab-syscalls/proc.c:450-466 | The scheduler goes round the table and leaves an entry only after it has found it not runnable under its lock, or has run it. |
| `ProcessProgress.CallsEnd` | xv6-lab-syscalls/proc.c:272-599 | Every step of a thread in a system call brings it nearer to its end, except that a woken waiter starts over and an interrupted thread goes on where it was. |
| `UserHeap.FreedOrdered` | xv6-lab-pagetables/user/umalloc.c:33-43 | After free the list is again address-ordered with no two blocks overlapping or touching. |
| `UserHeap.FreedUnits` | xv6-lab-pagetables/user/umalloc.c:33-43 | free adds exactly the units of the block. |
| `UserHeap.FreedChain` | xv6-lab-pagetables/user/umalloc.c:33-43 | The header words after free are one ring with one wrap. |
| `UserHeap.TakenOrdered` | xv6-lab-pagetables/user/umalloc.c:75-82 | Taking a block, or the end of one, keeps the order. |
| `UserHeap.TakenUnits` | xv6-lab-pagetables/user/umalloc.c:75-82 | malloc removes exactly the units it hands out. |
| `UserHeap.TakenChain` | xv6-lab-pagetables/user/umalloc.c:75-82 | The header words after malloc are one ring with one wrap. |
| `UserMalloc.StopsThere` | xv6-lab-pagetables/user/umalloc.c:30-32 | The search in free stops at the block before bp and nowhere else, also at the wrap. |
| `UserMalloc.FreeShares` | xv6-lab-pagetables/user/umalloc.c:24-44 | free keeps every unit of sbrk in exactly one block. |
| `UserMalloc.TakeShares` | xv6-lab-pagetables/user/umalloc.c:74-85 | malloc keeps every unit of sbrk in exactly one block. |
| `UserMalloc.GrowShares` | xv6-lab-pagetables/user/umalloc.c:54-59 | New units from sbrk join the partition. |
| `UserMalloc.NeededUnits` | xv6-lab-pagetables/user/umalloc.c:69-69 | Header plus enough units, less than one unit too many. |
| `UserMalloc.Heap.FindSpot` | xv6-lab-pagetables/user/umalloc.c:30-32 | The search loop terminates at the block after which bp belongs. |
| `UserMalloc.Heap.Relink` | xv6-lab-pagetables/user/umalloc.c:33-42 | The header words after the four ways of joining with the neighbours. |
| `UserMalloc.Heap.Free` | xv6-lab-pagetables/user/umalloc.c:24-44 | The block goes back and joins its neighbours; ring, partition and all other blocks are intact. |
| `UserMalloc.Heap.Morecore` | xv6-lab-pagetables/user/umalloc.c:46-61 | At least 4096 units more and a block that is large enough, or no change exactly if sbrk fails. |
| `UserMalloc.Heap.Refill` | xv6-lab-pagetables/user/umalloc.c:86-88 | morecore is called only when no free block is large enough. |
| `UserMalloc.Heap.Give` | xv6-lab-pagetables/user/umalloc.c:75-84 | The block is cut or unlinked and handed out. |
| `UserMalloc.Heap.Setup` | xv6-lab-pagetables/user/umalloc.c:70-73 | The first call makes base the ring. |
| `UserMalloc.Heap.Malloc` | xv6-lab-pagetables/user/umalloc.c:63-90 | The search terminates with at most one call of morecore, hands out a new block of the right size disjoint from all others, and fails only if nothing fits and sbrk fails. |
| `PercpuPages.PartsApart` | xv6-lab-locks/kalloc.c:74-80 | No page lies in two parts, for any remainder. |
| `PercpuPages.LostAtBoundary` | xv6-lab-locks/kalloc.c:74-80 | A page that kinit does not free lies across the boundary of two parts. |
| `PercpuPages.LosesFew` | xv6-lab-locks/kalloc.c:74-80 | kinit loses at most NCPU-1 pages. |
| `PercpuPages.EveryPageSelected` | xv6-lab-locks/kalloc.c:26-40 | pa2cpuid finds a list for every aligned page in [end, PHYSTOP). |
| `PercpuPages.Memory.Pa2cpuid` | xv6-lab-locks/kalloc.c:26-40 | The first part that contains the address, ends included; -1 exactly outside all parts. |
| `PercpuPages.Memory.Kfree` | xv6-lab-locks/kalloc.c:96-117 | The page goes to the head of its list; refused exactly where the kernel panics. |
| `PercpuPages.Memory.Freerange` | xv6-lab-locks/kalloc.c:83-90 | Exactly the whole pages of the range become free, and kfree never panics. |
| `PercpuPages.Memory.Kinit` | xv6-lab-locks/kalloc.c:69-81 | No page is freed twice; the free pages are exactly those inside a part. |
| `PercpuPages.Memory.Steal` | xv6-lab-locks/kalloc.c:42-68 | The head of the first other list that has one; none exactly if they are all empty. |
| `PercpuPages.Memory.Kalloc` | xv6-lab-locks/kalloc.c:122-146 | Without interference it fails only if every list is empty, and prefers its own list. |
| `PercpuRuns.StepInv` | xv6-lab-locks/kalloc.c:96-146 | Each critical section keeps every page on one list or in one hand. |
| `PercpuRuns.EachPageOnce` | xv6-lab-locks/kalloc.c:42-146 | In every run, stealing included, a page is at one place of one list or held by one thread, never both. |
| `PercpuRuns.FreeFindsList` | xv6-lab-locks/kalloc.c:96-117 | kfree of a page in hand never panics. |
| `PercpuRuns.GivesAndTakes` | xv6-lab-locks/kalloc.c:96-146 | kalloc takes the head of its own list if there is one, kfree puts the page at the head of the list named. |
| `PercpuRuns.FailsOnlyIfEmpty` | xv6-lab-locks/kalloc.c:42-68 | In every run kalloc returns without a page only if each list was empty when it looked there, during this call. |
| `PercpuRuns.KallocEnds` | xv6-lab-locks/kalloc.c:42-146 | Every step of a kalloc brings it nearer to its end, whatever the others do. |
| `Barrier.StepInv` | xv6-lab-multithreading/barrier.c:25-46 | Every step keeps: each thread is outside round r, waiting in r, or released from r - 1, and nthread counts the waiters. |
| `Barrier.LastOne` | xv6-lab-multithreading/barrier.c:34-39 | The thread that completes the count is the only one not waiting. |
| `Barrier.RoundMatches` | xv6-lab-multithreading/barrier.c:55-58 | A thread that starts iteration i reads round == i. |
| `Barrier.NobodyLeavesEarly` | xv6-lab-multithreading/barrier.c:25-46 | Nobody leaves a round before everybody has entered it. |
| `Barrier.NeverStuck` | xv6-lab-multithreading/barrier.c:25-62 | Until every thread is done, some thread can move. |
| `Barrier.RunsAreFinite` | xv6-lab-multithreading/barrier.c:25-62 | No run is longer than six steps per thread and iteration; so every run that is not cut short ends with every thread done. |
| `Barrier.SpuriousBreaks` | xv6-lab-multithreading/barrier.c:41-44 | One return from the wait without a broadcast is harmless if and only if the holder of the mutex is about to end the round; otherwise the assertion fails as soon as the mutex is free: the wait is not in a loop. |
| `Barrier.SpuriousReachable` | xv6-lab-multithreading/barrier.c:33-42 | Such a state is reached with two threads. |
| `InodeTable.IgetScan` | xv6-lab-filesystem/fs.c:249-263 | The one pass finds the live entry, else the first empty slot. |
| `InodeTable.GetInv` | xv6-lab-filesystem/fs.c:242-273 | iget of any number, free ones included, keeps the invariant, also on an entry whose iput is freeing the inode. |
| `InodeTable.AllocInv` | xv6-lab-filesystem/fs.c:195-215 | ialloc keeps the invariant, also when it reuses a number before the old iput has dropped its reference. |
| `InodeTable.DupInv` | xv6-lab-filesystem/fs.c:277-284 | idup keeps the invariant. |
| `InodeTable.LoadInv` | xv6-lab-filesystem/fs.c:297-313 | ilock reads the inode exactly if the entry is not valid. |
| `InodeTable.UpdateInv` | xv6-lab-filesystem/fs.c:221-237 | iupdate keeps the invariant. |
| `InodeTable.PutInv` | xv6-lab-filesystem/fs.c:332-358 | iput keeps the invariant on both of its ways. |
| `InodeTable.NoBlockInIput` | xv6-lab-filesystem/fs.c:337-344 | acquiresleep inside itable.lock never waits. |
| `InodeTable.StepInv` | xv6-lab-filesystem/fs.c:195-358 | Every step of every handle keeps the invariant. |
| `InodeTable.LiveEntriesUnique` | xv6-lab-filesystem/fs.c:242-273 | In every run no two live entries share device and inode number, and ref counts the outstanding references. |
| `InodeTable.EntryAgrees` | xv6-lab-filesystem/fs.c:286-358 | In every run a valid entry that is unlocked, or locked and unchanged, equals the on-disk inode. |
| `InodeTable.DiskStep` | xv6-lab-filesystem/fs.c:203-237 | The on-disk inode changes only when ialloc marks a free one with the kind asked for, no links and an empty body, when iupdate writes what the lock holder has in memory, or when iput frees one without links; and these do change it. |
| `InodeTable.WrittenStays` | xv6-lab-filesystem/fs.c:221-237 | Nobody else touches what a lock holder has in memory. |
| `InodeTable.WriteReachesDisk` | xv6-lab-filesystem/fs.c:221-237 | What a caller writes in memory is what its iupdate puts on disk. |
| `InodeTable.LastPutFrees` | xv6-lab-filesystem/fs.c:332-358 | The last iput of a valid inode without links frees it on disk; every other iput gives up one reference. |
| `InodeTable.GotNumber` | xv6-lab-filesystem/fs.c:242-273 | iget gives its caller an entry of the number asked for. |
| `InodeTable.NumberStays` | xv6-lab-filesystem/fs.c:242-358 | Whoever refers to an entry refers to the same inode until it lets go. |
| `InodeTable.HandleMoves` | xv6-lab-filesystem/fs.c:277-323 | ilock, iunlock and idup take, give back and duplicate as their callers rely on. |
| `InodeTable.StepsGoDown` | xv6-lab-filesystem/fs.c:195-358 | ialloc, ilock, iupdate and iput take a fixed number of steps, and nobody adds to them. |
| `InodePanics.StepSure` | xv6-lab-filesystem/fs.c:195-358 | Every step keeps: whoever got an inode at a moment when it was allocated and no iput was freeing it, or duplicated such a reference, refers to an allocated inode that nobody else is freeing. |
| `InodePanics.SureNeverPanics` | xv6-lab-filesystem/fs.c:294-358 | In every run, whatever other handles do, such a handle never meets a free inode in ilock. |
| `InodePanics.LinkedIsSecure` | xv6-lab-filesystem/fs.c:332-349 | A number that a link names, or that such a handle uses, is one that can be got safely. |
| `InodePanics.NoPanicInIlock` | xv6-lab-filesystem/fs.c:294-311 | The exact condition: after references that were all got safely, an iget is followed by no panic of its ilock, however the others move, if and only if the inode is allocated and no iput has decided to free it. |
| `InodePanics.InsecurePanics` | xv6-lab-filesystem/fs.c:294-311 | After any other iget the ilock can be led to the panic within a few steps. |
| `InodePanics.RemovedParentPanics` | xv6-lab-filesystem/fs.c:679-701 | A run in which a directory loses its last link and is freed, a walk gets its number as .. of a removed directory gives it, and ilock panics. |
| `LinkCounts.ReachesRoot` | xv6-lab-filesystem/sysfile.c:270-276 | From every linked directory, .. leads to the root. |
| `LinkCounts.OneParent` | xv6-lab-filesystem/sysfile.c:270-279 | A linked directory is named by one entry besides its own and its children's, in the directory its .. names. |
| `LinkCounts.NewFileKeeps` | xv6-lab-filesystem/sysfile.c:261-281 | A new file keeps counts, names and tree. |
| `LinkCounts.NewDirKeeps` | xv6-lab-filesystem/sysfile.c:264-281 | A new directory keeps them, with one link more for its parent. |
| `LinkCounts.NewLinkKeeps` | xv6-lab-filesystem/sysfile.c:141-153 | A new link keeps them. |
| `LinkCounts.RemoveFileKeeps` | xv6-lab-filesystem/sysfile.c:218-229 | Unlinking a file keeps them, and its count was at least 1. |
| `LinkCounts.EmptyDirLinks` | xv6-lab-filesystem/sysfile.c:168-182 | An empty directory has exactly one link. |
| `LinkCounts.RemoveDirKeeps` | xv6-lab-filesystem/sysfile.c:218-229 | Unlinking an empty directory keeps them, with one link less for its parent. |
| `LinkCounts.ReapKeeps` | xv6-lab-filesystem/fs.c:332-358 | Freeing an inode without links keeps them. |
| `LinkCounts.FileNeedsLinkedParent` | xv6-lab-filesystem/sysfile.c:241-284 | The code does not refuse a removed directory; a new file keeps counts and tree if and only if its directory is linked. |
| `LinkCounts.StrayUnnamed` | xv6-lab-filesystem/sysfile.c:261-281 | A file made in a removed directory has one link, and no linked directory names it. |
| `LinkCounts.LinkNeedsLinkedParent` | xv6-lab-filesystem/sysfile.c:145-152 | A new link keeps counts and tree if and only if its directory is linked. |
| `LinkCounts.DirNeedsLinkedParent` | xv6-lab-filesystem/sysfile.c:241-284 | A new directory keeps counts and tree if and only if its directory is linked. |
| `LinkOps.Trunc` | xv6-lab-filesystem/fs.c:652-660 | A path element keeps its first 14 bytes. |
| `LinkOps.FileTree.Dirlookup` | xv6-lab-filesystem/fs.c:571-595 | The first live entry with the name, -1 exactly if there is none. |
| `LinkOps.FileTree.Dirlink` | xv6-lab-filesystem/fs.c:598-625 | Refuses exactly the names that exist; otherwise fills the first empty slot or appends. |
| `LinkOps.FileTree.IsDirEmpty` | xv6-lab-filesystem/sysfile.c:168-182 | True exactly if nothing follows the first two entries. |
| `LinkOps.FileTree.Dots` | xv6-lab-filesystem/sysfile.c:273-275 | The two entries of a new directory. |
| `LinkOps.FileTree.MakeDir` | xv6-lab-filesystem/sysfile.c:264-281 | The new directory with its two entries, its entry in the parent, a link more for the parent, and nothing else; the tree stays right if and only if the parent is linked. |
| `LinkOps.FileTree.MakeFile` | xv6-lab-filesystem/sysfile.c:264-281 | The new inode, its entry and nothing else; the counts stay right if and only if the parent is linked. |
| `LinkOps.FileTree.Create` | xv6-lab-filesystem/sysfile.c:241-284 | In any directory, removed or not: an existing inode is returned exactly if a file is wanted and the first live entry with the name leads to a file or device; a new name makes exactly one new inode and entry; every other call changes nothing; the invariant then holds if and only if the directory is linked. |
| `LinkOps.FileTree.Link` | xv6-lab-filesystem/sysfile.c:119-166 | In any directory: succeeds exactly for a file and a new name, a failure leaves no trace; the invariant then holds if and only if the directory is linked. |
| `LinkOps.FileTree.Unlink` | xv6-lab-filesystem/sysfile.c:184-239 | In any directory: removes exactly the named entry and its link, refuses exactly ., .., missing names and full directories; the nlink panic cannot happen. |
| `LinkOps.FileTree.SymlinkAt` | xv6-lab-filesystem/sysfile.c:517-550 | In any directory: succeeds exactly for a new name and a written target; otherwise the new inode is freed again. |
| `LinkOps.FileTree.LastIput` | xv6-lab-filesystem/fs.c:332-358 | The last iput frees exactly the inodes without links. |
| `LinkOps.FileTree.Execute` | xv6-lab-filesystem/sysfile.c:118-284 | One call, with exactly the effect its rules give; the invariant holds afterwards if and only if it made no entry in a removed directory. |
| `LinkOps.FileTree.Run` | xv6-lab-filesystem/sysfile.c:118-284 | Every sequence of calls, failing ones included, up to the first that makes an entry in a removed directory, has exactly the effects of its calls, and at its end nlink equals the number of entries in linked directories that name the inode, . excepted. |
| `LinkOps.RemovedDirBreaks` | xv6-lab-filesystem/sysfile.c:241-284 | mkdir a, rmdir a, and a file made inside a: a valid tree before, a file with a link that nobody names after. |

## Left out

- Kernel memory operations on several CPUs at once: CowKernel, CowFork, CowAccess and AddressSpaces treat each operation as atomic; the locks of kmem and cows are not modelled.
- CowKernel.Kernel.Uvmunmap: only the call with do_free = 1; with do_free = 0 the source unmaps the trampoline and trapframe, which no user table of the model has.
- The trampoline and trapframe entries, kernel page tables, exec, copyinstr, mmap, TLB flushes and the accessed and dirty bits.
- Raw bytes of table pages and index blocks: a frame is table words or bytes, a block is zeroed, bytes or block numbers; the junk fill of freed pages is kept, aliasing of a frame as both is excluded by the invariant.
- The linked free list of kalloc inside the pages is a sequence; the bitmap is a sequence of booleans without its byte packing.
- The log: begin_op, end_op, commit, absorption and crash recovery; log_write only adds to the set of logged blocks.
- FileSystem.Disk.FileWrite: the bound of MAXOPBLOCKS blocks is stated for the single-indirect tree only, because the number 10 does not cover the double-indirect one.
- FileSystem.Disk.Writei: bytes copied into a cached block that is then not logged are treated as file contents, as they are for every later read through the cache.
- BufferCacheRuns.NoCyclicWait: a process that holds several buffers is several handles, so the order in which one process takes sleep-locks is not modelled.
- Buffer cache: starvation, the wrap of ticks, the panic when no buffer is free beyond its being a stuck place, and dev = 0.
- Processes: open files, the current directory, user memory, trace masks and process-number overflow; other locks than wait_lock and p->lock, so sleep on another channel appears without its lock; fairness.
- UserMalloc.Heap.Malloc: requests above 0x7fffffe0 bytes, for which the argument of sbrk does not fit an int; the alignment of sbrk's result; the contents of the blocks.
- PercpuPages: more than 4096 CPUs, for which the remainder of the division could hold a page; the junk fill.
- Barrier: the unlocked read of round is one atomic step.
- InodeTable: whether an inode without links is eventually freed; the order in which ialloc searches.
- LinkCounts and LinkOps: path walking (namex), the 16-bit width of nlink, file contents of directories and links, interleaving of two system calls, getsymlink.
- pipes, console, traps, virtio, e1000, alarm, printf, string functions and the user programs other than malloc and the barrier: thin glue or input and output.
