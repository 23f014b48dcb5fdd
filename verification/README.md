# Verified model of a small RISC-V kernel

This project models the memory management and the thread management of the kernel, and proves what they
promise. It has five connected parts; `Sequences.dfy` holds what all of them use.

**Buddy allocator** (`Buddy*.dfy`, `Bitmap.dfy`, `FreeLists.dfy`, `Memory64.dfy`, `Powers.dfy`). Memory is an
array of bytes. Free lists are threaded through the first words of the free blocks, and a bitmap holds one bit for
each node of the tree of blocks. A node of the tree is named by its index in level order. The specification is a
set of live blocks and one list per order; `Canonical` says that the lists are what the live blocks imply.
The class `BuddyAllocator` is proved against it, on bytes. The heap has 2^n pages for any n >= 2; the kernel has n = 12.

**Slab allocator** (`DList.dfy`, `Slab*.dfy`, `Kmalloc.dfy`). Caches of equal objects in slabs obtained from the
buddy allocator above. Slab lists and free-object lists are doubly linked lists in the byte memory, and the other
fields of a slab's descriptor are words of its page. `Live` says which objects are handed out. A cache's soundness is
proved to depend on nothing but the bytes of its own buddy blocks (`Kmalloc.Undisturbed`). `SmallBuffers` is the set
of 13 caches behind kmalloc and kfree.

**The heap in use** (`SlabLifetime.dfy`, `Heap*.dfy`). `Lifetime` is the whole life of one cache. `Session` lets users
of small buffers, of any number of caches, created and destroyed on the way, and of whole pages take, write and give
back in any order, and proves that nobody ever disturbs anybody: in the end everything held is live and has the
contents last written in it. `Close` gives everything back, and bitmap and free lists are those of the beginning.

**Thread kernel** (`SemaphoreSpec.dfy`, `SleepList.dfy`, `Kernel*.dfy`, `Threads.dfy`). `KernelSpec` gives every trap
as a function on states; `KernelRuns` proves properties of all runs of traps; the classes `Scheduler`, `MySemaphore`
and `Kernel` work on linked thread control blocks and are proved to take exactly the specified steps.
`KernelFairness` proves that a ready thread runs within a bounded number of timer ticks, `KernelTurns` says whom every
trap lets run and how long.

**Bounded buffer** (`Buffer*.dfy`). Any number of calls of put, get and getCnt as a state machine that interleaves
them at every semaphore operation and every statement between. The slots number cap (myBuffer) or cap + 1
(Buffer). `BoundedBuffer` takes the steps on an array. `BufferOnKernel` puts the calls on the thread kernel above,
where a wait is a system call that blocks and switches and the timer may strike between any two statements, and
proves that every run of that system is a run of the protocol. `BufferHistory` relates what gets return to what puts
were called with, on both. `BufferService` says what the threads can count on there: no call is lost, some thread can
go on unless all wait for the same thing, and it gets the processor soon.

Preconditions come from what the code leaves undefined:

- `buddy_alloc` gets 1 <= size <= 4096 * 2^n; `buddy_free` gets the start of a live block, or an address its guard rejects.
- The first word of the heap is zero at initialisation. The code does not write it and reads it at the first
  allocation; the constructor's contract says that the allocator is sound exactly in this case.
- A cache that is asked for objects has slabs that fit in the heap. A freed object is live, or its address lies in
  no slab in use. A constructor or destructor writes only in its object, the destructor not in the two link words.
- kmalloc gets at most 131071 bytes and a heap of at least 2^8 pages. kfree gets null or a buffer in use.
- A finished thread makes no system calls, the idle thread only dispatches, a thread is started once, and
  only open semaphores are used.

`dafny verify dfyconfig.toml` in this directory verifies everything with Dafny's default limits; each proof also fits
`--resource-limit 2000000` with room to spare.

## Model

| member | source | states |
|---|---|---|
| `Bitmap.BitmapInit` | OS2 predaja/src/bitmap.cpp:13-16 | afterwards exactly the bit of the root is set |
| `Bitmap.BitIndex` | OS2 predaja/src/bitmap.cpp:17-31 | the loop computes the level-order index of the tree node that stands for the aligned block of that order at that page |
| `Bitmap.CheckBit` | OS2 predaja/src/bitmap.cpp:33-41 | 1 or 0 as the packed bit is set or clear, most significant bit first |
| `Bitmap.SetBit` | OS2 predaja/src/bitmap.cpp:43-54 | the named node's bit takes the value and no other node's bit changes, in the same byte or elsewhere |
| `Bitmap.FindBuddyIndex` | OS2 predaja/src/bitmap.cpp:57-63 | on every node but the root, the other child of the same parent; -1 on the root |
| `BuddyTheorems.IndexInjective` | OS2 predaja/src/bitmap.cpp:17-31 | two aligned blocks with the same bit index are the same block of the same order |
| `BuddyTheorems.IndexOnto` | OS2 predaja/src/bitmap.cpp:17-31 | every index up to 2^(n+1)-2 is the index of an aligned block inside the heap |
| `BuddyTheorems.IndexWithin` | OS2 predaja/h/bitmap.h:11 | no block's index goes beyond 2^(n+1)-2, so the bitmap of 2^(n+1) bits holds them all |
| `BuddySteps.Take` | OS2 predaja/src/buddy.cpp:40-63 | taking a maximal free block off its list changes no other list's membership and sets exactly one bit |
| `BuddySteps.Child` | OS2 predaja/src/buddy.cpp:66-72 | splitting: the right half becomes a free block, no other list entry changes, one bit is set |
| `BuddySteps.ClearBitMeansFree` | OS2 predaja/src/buddy.cpp:108-119 | the fact the merge loop trusts: when the bit of a block's sibling is clear, the whole sibling is one maximal free block and the two can be joined |
| `BuddySteps.Release` | OS2 predaja/src/buddy.cpp:101-115 | giving back a block whose sibling is in use adds one list entry and clears one bit (the root's bit stays set) |
| `BuddyTheorems.AllocOk` | OS2 predaja/src/buddy.cpp:32-81 | an allocation takes a block of just the order asked for, clear of every live block, and leaves the free lists what the live blocks, with it, imply |
| `BuddyTheorems.CoalesceOk` | OS2 predaja/src/buddy.cpp:99-123 | the upward merge ends in the free lists that the blocks still live imply |
| `BuddyBits.BitsTaken` | OS2 predaja/src/buddy.cpp:42-47 | setting the bit of a maximal free block gives the bitmap of the live blocks with it |
| `BuddyBits.BitsSplit` | OS2 predaja/src/buddy.cpp:66-72 | setting the bit of the half that is kept gives the bitmap in which that half is live instead of the whole |
| `BuddyBits.BitsMerged` | OS2 predaja/src/buddy.cpp:108-122 | clearing the bit of a block whose sibling is free gives the bitmap in which their parent is live instead |
| `BuddyBits.BitsReleased` | OS2 predaja/src/buddy.cpp:101-115 | clearing the bit of a block whose sibling is in use, or leaving the root's set, gives the bitmap of the blocks still live |
| `BuddyTheorems.CanonicalUnique` | OS2 predaja/src/buddy.cpp:15-126 | the members of every free list are determined by the live blocks alone |
| `BuddyBits.BitsUnique` | OS2 predaja/src/bitmap.cpp:10-54 | the bitmap bytes are determined by the live blocks alone |
| `BuddyTheorems.FullyCoalesced` | OS2 predaja/src/buddy.cpp:99-123 | a block and its buddy are never both on a free list |
| `BuddyTheorems.AllocFailsExactly` | OS2 predaja/src/buddy.cpp:32-81 | an allocation of order k returns 0 if and only if every aligned region of 2^k pages touches a live block |
| `BuddyTheorems.AllocFreeIdentity` | OS2 predaja/src/buddy.cpp:32-126 | freeing a just-allocated block restores every free list, order included, in the exact and in the split case |
| `BuddyTheorems.PagesConserved` | OS2 predaja/src/buddy.cpp:32-126 | live pages and free pages are disjoint and always add up to the whole heap |
| `BuddyTheorems.PagesInOneBlock` | OS2 predaja/src/buddy.cpp:32-126 | no page lies in two live blocks, and none in two listed blocks |
| `BuddyRuns.RunCanonical` | OS2 predaja/src/buddy.cpp:20-126 | over any run of allowed allocations and frees, the lists say exactly what the live blocks say |
| `BuddyRuns.HistoryForgotten` | OS2 predaja/src/buddy.cpp:20-126 | two runs from initialisation that leave the same blocks live leave the same free lists up to order within a list; with nothing live, the initial lists |
| `BuddyRuns.FreesRun` | OS2 predaja/src/buddy.cpp:83-126 | any list of distinct live blocks can be freed in any order, and frees just those |
| `FreeLists.FreelistInsert` | OS2 predaja/src/buddy.cpp:155-162 | the list threaded through memory gets the address in front; only the eight bytes of its link word change |
| `FreeLists.RemoveFromFreelist` | OS2 predaja/src/buddy.cpp:165-180 | the list loses the address wherever it stands; at most one link word changes; an absent address changes nothing |
| `BuddyMemory.OwnedWritesHarmless` | OS2 predaja/src/buddy.cpp:32-126 | whatever the owners of live blocks write in them, all free lists stay well formed |
| `Buddy.FindPowerOfTwo` | OS2 predaja/src/buddy.cpp:128-139 | the smallest k with block_num <= 2^k |
| `Buddy.AlignTo4096` | OS2 predaja/src/buddy.cpp:141-148 | the first multiple of 4096 from the argument on |
| `Buddy.BuddyAllocator.constructor` | OS2 predaja/src/buddy.cpp:20-30 | the fresh allocator is sound if and only if the first heap word is zero, which initialisation does not write |
| `Buddy.BuddyAllocator.TakeHead` | OS2 predaja/src/buddy.cpp:42-47 | the head is unlinked through its link word and marked used; bitmap, heads and links again say the same |
| `Buddy.BuddyAllocator.SplitOnce` | OS2 predaja/src/buddy.cpp:66-71 | one split: the list head overwritten was empty, the right half becomes the only block of its list, no owned byte is written |
| `Buddy.BuddyAllocator.SplitDown` | OS2 predaja/src/buddy.cpp:66-75 | the splitting loop reaches the order asked for, in the state the specification gives |
| `Buddy.BuddyAllocator.Alloc` | OS2 predaja/src/buddy.cpp:32-81 | result, live blocks and every list as specified for the smallest sufficient order; 0 exactly when the specification finds nothing; every byte of a live block and outside the heap is kept |
| `Buddy.BuddyAllocator.AllocPromise` | OS2 predaja/src/buddy.cpp:32-81 | a block that is returned is aligned to its own size, of the smallest sufficient power of two of pages, inside the heap, and shares no byte with any live block |
| `Buddy.BuddyAllocator.RecoverOrder` | OS2 predaja/src/buddy.cpp:92-97 | climbing the bitmap from the page finds exactly the order the live block was allocated with |
| `Buddy.BuddyAllocator.Merge` | OS2 predaja/src/buddy.cpp:99-123 | the merge loop gives the lists of the specification and clears the bits on its way; no byte of a block that stays live is written |
| `Buddy.BuddyAllocator.JoinSibling` | OS2 predaja/src/buddy.cpp:116-122 | the buddy is found at the computed address and taken off its list, and the smaller address is the parent's |
| `Buddy.BuddyAllocator.Free` | OS2 predaja/src/buddy.cpp:83-126 | a live block is given back and merged as specified; an address the guard rejects changes nothing |
| `Buddy.BuddyAllocator.AllocThenFree` | OS2 predaja/src/buddy.cpp:32-126 | allocating and freeing again restores bitmap bytes, list heads and lists |
| `Buddy.BuddyAllocator.EverythingFree` | OS2 predaja/src/buddy.cpp:20-126 | with nothing live, bitmap, list heads and lists are those of initialisation |
| `DList.ListPush` | OS2 predaja/src/list.cpp:7-22 | the node becomes the first, linked both ways; only it and the old first node are written |
| `DList.ListRemove` | OS2 predaja/src/list.cpp:24-40 | the node leaves the list from any position and is unlinked; an empty list or null entry changes nothing |
| `DList.ListPop` | OS2 predaja/src/list.cpp:42-57 | the first node is returned and the rest is a list; 0 from an empty list |
| `SlabSpec.PromoteClassified` | OS2 predaja/src/slab.cpp:263-272 | choose_slab's moves and count leave every slab on the one list its counter calls for |
| `SlabSpec.DemoteClassified` | OS2 predaja/src/slab.cpp:156-165 | kmem_cache_free's moves and count leave every slab on the one list its counter calls for |
| `SlabLinking.LinkSlots` | OS2 predaja/src/slab.cpp:100-116 | the loop threads all objects of the slab memory into one doubly linked list and writes nothing outside the memory |
| `SlabSupply.TakeTwo` | OS2 predaja/src/slab.cpp:79-89 | both blocks of a slab, exactly those the buddy allocator finds for a page and for the slab's order, or none: a failed second allocation leaves no trace in lists or live blocks |
| `SlabSupply.TwoTaken` | OS2 predaja/src/slab.cpp:79-89 | the two blocks of a slab can be taken one after the other exactly when the condition under which allocations are said to fail does not hold |
| `SlabSupply.TakingBlocks` | OS2 predaja/src/slab.cpp:79-89 | taking blocks of given orders one after the other takes different blocks of just these orders that were not live, and leaves the lists what the live blocks, with them, imply |
| `Slab.KmemCache.constructor` | OS2 predaja/src/slab.cpp:35-52 | objects of at least 16 bytes; a slab is the smallest power of two of pages that holds eight of them and has as many as fit in it; empty lists |
| `SlabSupply.FittingExactly` | OS2 predaja/src/slab.cpp:35-45 | the shape and the slab order are the only ones that fit the size in this sense |
| `SlabFields.WriteRecord` | OS2 predaja/src/slab.cpp:92-97 | the fields of a new slab in its page, and no byte of another block |
| `SlabFields.StoreCounter` | OS2 predaja/src/slab.cpp:156-165 | the 32-bit counter word of one descriptor changes; every other field, list, object and block is as it was |
| `SlabFields.StoreFreeList` | OS2 predaja/src/slab.cpp:168 | the free-list word of one descriptor changes; every other field, list, object and block is as it was |
| `Slab.KmemCache.Grow` | OS2 predaja/src/slab.cpp:76-119 | a slab of free objects is added exactly when two blocks can be had, and just these two come live; live objects and all other blocks keep their bytes |
| `Slab.KmemCache.Fullest` | OS2 predaja/src/slab.cpp:241-252 | of the partial slabs with the most objects in use, the last on the list |
| `Slab.KmemCache.ChooseSlab` | OS2 predaja/src/slab.cpp:235-274 | the slab picked is the last of the fullest partial ones, else the first empty one, else a new one; blocks are taken for the new one only; null exactly when there is none of these |
| `Slab.KmemCache.Alloc` | OS2 predaja/src/slab.cpp:64-73 | an object nobody held, from the picked slab, with what its constructor wrote; live objects gain just it and keep their bytes; no block is taken while a slab has a free object, and just a new slab's two blocks otherwise; null slab exactly when nothing can serve, and then nothing changes |
| `Slab.KmemCache.FindSlab` | OS2 predaja/src/slab.cpp:140-153 | the slab in use whose memory holds the address; 0 if and only if there is none |
| `Slab.KmemCache.Free` | OS2 predaja/src/slab.cpp:137-171 | a live object goes to the front of its own slab's free list, stops being live, and its destructor has run; no other object changes; an unknown address changes nothing |
| `Slab.KmemCache.CountDown` | OS2 predaja/src/slab.cpp:156-165 | a full slab to the partial list, the counter down, a slab without objects in use to the empty list, in this order; every object and other block is as it was |
| `Slab.KmemCache.LiveObjectsApart` | OS2 predaja/src/slab.cpp:100-116 | two live objects of a cache never overlap |
| `Slab.KmemCache.LiveInOwnBlock` | OS2 predaja/src/slab.cpp:79-119 | a live object lies inside the memory block of one of the cache's slabs, a live buddy block nobody else holds |
| `Slab.KmemCache.Overwrite` | OS2 predaja/src/slab.cpp:64-73 | a write inside a live object leaves the cache sound and every other live object and block as it was |
| `SlabSteps.WritesHarmless` | OS2 predaja/src/slab.cpp:64-171 | arbitrary writes inside live objects, and behind the link words of free ones, leave every list of the cache well formed |
| `Slab.KmemCache.Shrink` | OS2 predaja/src/slab.cpp:121-135 | every slab of the empty list is given back, in order, and no other; the result is their memory in bytes |
| `SlabTeardown.ShrunkIs` | OS2 predaja/src/slab.cpp:129-134 | shrinking drops exactly the slabs without objects in use and leaves the others as they are |
| `Slab.KmemCache.Destroy` | OS2 predaja/src/slab.cpp:220-232 | all blocks of the cache are given back, each once, live objects or not: the live blocks left are those of others, byte for byte |
| `SlabLifetime.CreateCache` | OS2 predaja/src/slab.cpp:26-61 | for any object size, a sound empty cache in one new page, the only block taken, with the slabs and objects that size calls for; null exactly when no page can be had |
| `SlabLifetime.Answer` | OS2 predaja/src/slab.cpp:64-171 | one request, answered as specified, with the destructor of an object given back run and just the blocks taken that the request calls for; it fails only when it asks for an object while none is free and no slab can be had, and then takes nothing |
| `SlabLifetime.OneSlabServes` | OS2 predaja/src/slab.cpp:35-73 | a new cache serves as many allocations as objects fit in a slab from a single slab, and the next one from a second |
| `SlabLifetime.Lifetime` | OS2 predaja/src/slab.cpp:26-233 | created exactly when there is a page; the answers and the objects held are a session of just these requests; it stops early only without a free object and without memory for a slab; served to the end and destroyed, it leaves bitmap, free lists as sets and all other live bytes as before |
| `Kmalloc.FindBuffer` | OS2 predaja/src/slab.cpp:173-181 | the one class whose objects of 32 * 2^k bytes hold the size while those of the class below do not |
| `Kmalloc.SmallBuffers.Kmalloc` | OS2 predaja/src/slab.cpp:182-202 | a buffer of the class for size + 1 bytes, not in use before, served by that class alone; blocks are taken only when it has no free object, a page and a block of its slab order, and one more page for its cache if it had none; 0 exactly when there is no free object and its blocks cannot be had; all buffers in use keep their bytes, other caches and foreign blocks stay as they were |
| `Kmalloc.SmallBuffers.NothingTaken` | OS2 predaja/src/slab.cpp:195-262 | a kmalloc from a class with a free object takes no block: the live blocks, the free lists and the blocks of every class are as before |
| `Kmalloc.SmallBuffers.Kfree` | OS2 predaja/src/slab.cpp:203-208 | the header leads back to the owning cache, exactly that buffer stops being in use, its object goes back to its slab and no other cache changes; the other buffers keep their bytes |
| `Kmalloc.SmallBuffers.Fill` | OS2 predaja/src/slab.cpp:195-201 | in-bounds writes behind the header keep all caches sound and every header and other buffer as it was |
| `Kmalloc.Undisturbed` | OS2 predaja/src/slab.cpp:26-233 | a cache whose live blocks keep their bytes, whatever happens elsewhere in the heap, stays sound with the same objects and bytes |
| `Kmalloc.SmallBuffers.OthersAtWork` | OS2 predaja/src/slab.cpp:182-208 | whoever else works and keeps the bytes of live blocks that include the buffers' blocks, every buffer stays in use with its bytes, and its header still names its class |
| `Kmalloc.SmallBuffers.OtherCacheAtWork` | OS2 predaja/src/slab.cpp:182-208 | in particular any operation of another cache |
| `Kmalloc.SmallBuffers.BuddyAtWork` | OS2 predaja/src/slab.cpp:182-208 | in particular any direct use of the buddy allocator that frees none of their blocks |
| `Kmalloc.SmallBuffers.BuffersApart` | OS2 predaja/src/slab.cpp:182-202 | two buffers in use never overlap, of whatever classes |
| `Kmalloc.SmallBuffers.HeaderNamesClass` | OS2 predaja/src/slab.cpp:199-206 | the byte before a buffer in use names the class it came from |
| `Kmalloc.SmallBuffers.Retire` | OS2 predaja/src/slab.cpp:210-233 | destroying the cache of one class gives its blocks back; the other classes and everybody else keep blocks and bytes |
| `HeapSession.Open` | OS2 predaja/src/slab.cpp:26-61 | before the first kmalloc and the first cache nobody holds anything, whatever is live in the heap |
| `HeapSession.Step` | OS2 predaja/src/slab.cpp:26-233 | one event by any user, creation and destruction of caches included: all holdings stay live and intact, everybody else's bytes too, and what is held changes as the event says; just the blocks the event calls for are taken or given back, and caches not concerned do not change; memory is refused only where there is none, and then what is held stays the same |
| `HeapSession.Session` | OS2 predaja/src/slab.cpp:26-233 | any number of events in any order: everything held holds what its holder last wrote, no other buffer, object or block is taken, every event that asked for memory got some, and the run stops early only at an event there is no memory for |
| `HeapSession.Close` | OS2 predaja/src/slab.cpp:210-233 | gives back all pages and caches, after whatever session; then the live blocks are those of the beginning, byte for byte, and so are the bitmap and the members of every free list |
| `SleepList.InsertRefines` | OS2 predaja/src/tcb.cpp:42-92 | inserting into the delta list adds the sleeper with its own ticks to the map of remaining ticks and changes nobody else's |
| `SleepList.TickRefines` | OS2 predaja/src/riscv.cpp:138-147 | a tick takes one off every sleeper's remaining ticks, wakes exactly those that had one left, and leaves the head positive |
| `KernelRuns.StepSound` | OS2 predaja/src/riscv.cpp:101-152 | every trap keeps each thread at one place, every waiting queue as long as its semaphore is negative, and the first sleeper with ticks to go, so that the unsigned decrement never wraps |
| `KernelRuns.Partition` | OS2 predaja/src/tcb.cpp:25-63 | in every reachable state each thread but the idle one is at exactly one of not started, ready, running, one semaphore queue, asleep, finished, as its flags say |
| `KernelRuns.FinishedForever` | OS2 predaja/src/tcb.cpp:38-40 | a finished thread that was switched out never runs again |
| `KernelRuns.ExitSwitches` | OS2 predaja/src/riscv.cpp:129-132 | an exiting thread is finished, and switched out if and only if the ready queue is not empty |
| `KernelTurns.TrapTurns` | OS2 predaja/src/riscv.cpp:101-152 | whom every trap lets run, who is ready afterwards and in which order, and how much of the time slice is used: the first of the ready threads after a call that yields, counting those it readied, the caller at the end; after a blocking wait or a sleep the caller is not queued; the timer leaves the running thread until its slice is used up |
| `KernelTurns.WholeSlice` | OS2 predaja/src/riscv.cpp:138-152 | a running thread that gives the processor to nobody itself keeps it until its own time slice is used up, and the tick that uses it up runs the first of the ready threads, if there is one |
| `KernelTurns.CreatedStarts` | OS2 predaja/src/riscv.cpp:25-48 | a thread created to start is ready or runs after the call, one created not to start is neither; it has the time slice given; a started thread is ready or runs |
| `KernelTurns.StartedBy` | OS2 predaja/src/riscv.cpp:37-48 | over any run a thread is unstarted at the end if and only if it was at the beginning and the run does not start it, and till then it neither is ready nor runs |
| `KernelRuns.SemaphoreAccount` | OS2 predaja/src/mySemaphore.cpp:14-48 | over any run the value counts signals and waits, the queue has max(0, -val) threads, and waiters leave in the order they came |
| `KernelRuns.CloseWakesAll` | OS2 predaja/src/riscv.cpp:57-63 | closing readies all waiters in order and touches nobody else |
| `KernelRuns.SleepStarts` | OS2 predaja/src/tcb.cpp:42-63 | a thread that sleeps for t > 0 ticks has exactly t ticks left |
| `KernelRuns.WokenExactly` | OS2 predaja/src/riscv.cpp:88-147 | a thread with r ticks left sleeps through any run with fewer ticks and is ready or running after exactly the r-th |
| `KernelRuns.RoundRobin` | OS2 predaja/src/myScheduler.cpp:14-34 | the thread at position p of the ready queue is the result of exactly the (p+1)-th later get, whoever else is put meanwhile |
| `KernelFairness.QuickRuns` | OS2 predaja/src/riscv.cpp:138-152 | over any run the ticks counted stay below the longest time slice |
| `KernelFairness.RunnableStays` | OS2 predaja/src/tcb.cpp:25-30 | whatever others do and whenever the timer comes, a thread that is ready or runs stays ready or running |
| `KernelFairness.NobodyStarves` | OS2 predaja/src/riscv.cpp:138-152 | with time slices of at most max ticks, the thread at position p of the ready queue comes to run within max * (p + 1) ticks, whatever happens meanwhile |
| `Threads.Scheduler.Get` | OS2 predaja/src/myScheduler.cpp:14-23 | the first thread of the linked queue, unlinked; the idle thread from an empty queue |
| `Threads.Scheduler.Put` | OS2 predaja/src/myScheduler.cpp:25-34 | the thread goes to the end of the linked queue; the idle thread is not queued |
| `Threads.MySemaphore.Enqueue` | OS2 predaja/src/mySemaphore.cpp:24-32 | the thread goes to the end of the linked waiting queue |
| `Threads.MySemaphore.Dequeue` | OS2 predaja/src/mySemaphore.cpp:38-43 | the first waiter leaves the linked queue; null from an empty one |
| `Kernel.Kernel.Dispatch` | OS2 predaja/src/tcb.cpp:25-30 | on the linked thread blocks, exactly the specified switch |
| `Kernel.Kernel.SearchPlace` | OS2 predaja/src/tcb.cpp:74-92 | the loop finds the position and the own ticks with which insertion gives the specified list |
| `Kernel.Kernel.PutToSleep` | OS2 predaja/src/tcb.cpp:42-73 | on the linked sleep list, exactly the specified insertion and switch; 0 ticks change nothing |
| `Kernel.Kernel.Wait` | OS2 predaja/src/mySemaphore.cpp:14-36 | on the linked queue, exactly the specified wait |
| `Kernel.Kernel.Signal` | OS2 predaja/src/mySemaphore.cpp:20-48 | on the linked queue, exactly the specified signal |
| `Kernel.Kernel.Close` | OS2 predaja/src/riscv.cpp:57-63 | the signalling loop ends in the specified state, without the semaphore |
| `Kernel.Kernel.WakeSleepingThreads` | OS2 predaja/src/riscv.cpp:88-99 | the recursion unlinks and readies exactly the threads the specification wakes |
| `Kernel.Kernel.TimerTick` | OS2 predaja/src/riscv.cpp:138-152 | the timer branch is the specified step |
| `Kernel.Kernel.ThreadCreate` | OS2 predaja/src/riscv.cpp:25-48 | creation, started or not, and the dispatch that ends the call are the specified step |
| `Kernel.Kernel.ThreadStart` | OS2 predaja/src/riscv.cpp:37-41 | starting a created thread is the specified step |
| `Kernel.Kernel.ThreadExit` | OS2 predaja/src/riscv.cpp:33-36 | exiting, with the conditional dispatch, is the specified step |
| `Kernel.Kernel.ThreadDispatch` | OS2 predaja/src/riscv.cpp:129-132 | the end of a system call is the specified step |
| `Kernel.Kernel.SemOpen` | OS2 predaja/src/riscv.cpp:53-56 | opening is the specified step |
| `Kernel.Kernel.SemClose` | OS2 predaja/src/riscv.cpp:57-63 | closing and the dispatch that ends the call are the specified step |
| `Kernel.Kernel.SemWait` | OS2 predaja/src/riscv.cpp:64-67 | waiting is the specified step |
| `Kernel.Kernel.SemSignal` | OS2 predaja/src/riscv.cpp:68-71 | signalling is the specified step |
| `Kernel.Kernel.TimeSleep` | OS2 predaja/src/riscv.cpp:72-75 | sleeping is the specified step |
| `BufferProtocol.RunInv` | OS2 predaja/src/myBuffer.cpp:35-76 | for any number of calls and any interleaving, semaphore values, positions, histories and slots stay consistent |
| `BufferTheorems.FirstInFirstOut` | OS2 predaja/src/myBuffer.cpp:35-58 | the values read are a prefix of the values written, at most cap items are stored, and each is in its slot |
| `BufferHistory.CallsAnswered` | OS2 predaja/src/myBuffer.cpp:35-76 | in every reachable state: the p-th get to read returns the argument of the p-th put to write; every put and get past its access is counted once, and gets are never ahead of puts nor more than cap behind; getCnt returns the number of items put and not yet got when it computed, or 0 with every slot taken |
| `BufferTheorems.NeverOverwritten` | OS2 predaja/src/myBuffer.cpp:35-45 | a put writes only when there is room, and the slot's previous value has been read |
| `BufferTheorems.ReadsOldest` | OS2 predaja/src/myBuffer.cpp:47-58 | a get that reads finds an item, and it is the oldest stored one |
| `BufferTheorems.Exclusive` | OS2 predaja/src/myBuffer.cpp:35-76 | at most one call is between taking and giving back mutexTail, and likewise mutexHead |
| `BufferTheorems.SpareSlotExact` | OS2 predaja/test/buffer.cpp:55-71 | with one spare slot getCnt computes exactly items written minus items read |
| `BufferTheorems.NoSpareSlot` | OS2 predaja/src/myBuffer.cpp:60-76 | without a spare slot getCnt is exact if and only if the buffer is not full or holds no items at all, and 0 when it is full |
| `BufferTheorems.FullCountsZero` | OS2 predaja/src/myBuffer.cpp:60-76 | a concrete run after which getCnt has computed 0 although one item is stored |
| `BufferTheorems.Progress` | OS2 predaja/test/buffer.cpp:29-71 | with cap >= 1 some unfinished call can step, unless all wait for space on a full buffer or all for an item on an empty one |
| `BufferTheorems.OtherSideFree` | OS2 predaja/test/buffer.cpp:29-53 | in those two states the next call of the other kind finds its semaphores free |
| `BufferOnKernel.MoveProjects` | OS2 predaja/src/mySemaphore.cpp:14-48 | each step of the threads on the kernel, blocking, switching and waking included, is a step of the buffer's protocol, the start of a call, or nothing to it |
| `BufferOnKernel.RunProjects` | OS2 predaja/src/myBuffer.cpp:35-76 | every run of threads that call put, get and getCnt on the kernel, interrupted anywhere, is a run of the protocol |
| `BufferOnKernel.FreshReached` | OS2 predaja/src/myBuffer.cpp:8-15 | the booted kernel reaches, by opening four semaphores, a state in which the buffer is new |
| `BufferOnKernel.FirstInFirstOut` | OS2 predaja/src/myBuffer.cpp:35-58 | on the kernel, whatever threads run, the values read are the first of the values written, in order, at most cap are stored, and each is in its slot |
| `BufferHistory.ThreadsAnswered` | OS2 predaja/src/myBuffer.cpp:35-76 | on the kernel, whatever threads run, call and are interrupted, the p-th get to read returns the argument of the p-th put to write, and getCnt what was stored |
| `BufferService.Reached` | OS2 predaja/src/myBuffer.cpp:35-76 | in every run of threads with a new buffer each thread in a call is ready, runs, or waits in a queue of the buffer, and none is finished or lost |
| `BufferService.SomebodyGoesOn` | OS2 predaja/src/myBuffer.cpp:35-76 | for cap >= 1 some thread in a call is ready or runs, or all are queued for space at a full buffer, or all for an item at an empty one, where the other kind of call finds both its semaphores free |
| `BufferService.ServedSoon` | OS2 predaja/src/riscv.cpp:138-152 | a ready thread in a call gets the processor within max * (p + 1) ticks |
| `BufferService.WritesFreeSlot` | OS2 predaja/src/myBuffer.cpp:35-45 | on the kernel, a thread about to write in put finds room, and its slot's previous value was read |
| `BufferService.CountsStored` | OS2 predaja/src/myBuffer.cpp:60-76 | on the kernel, getCnt computes the number of items stored with a spare slot; without one exactly when the buffer is not full or has no slots, and 0 when it is full |
| `Buffer.BoundedBuffer.constructor` | OS2 predaja/test/buffer.cpp:3-9 | for any capacity, 0 included, the protocol's initial state, with as many slots as items or one more |
| `Buffer.BoundedBuffer.PutStep` | OS2 predaja/src/myBuffer.cpp:35-45 | on the array and the semaphores, the next step of a put is the protocol's step, so that `CallsAnswered` holds of its runs |
| `Buffer.BoundedBuffer.GetStep` | OS2 predaja/src/myBuffer.cpp:47-58 | on the array and the semaphores, the next step of a get is the protocol's step, so that `CallsAnswered` holds of its runs |
| `Buffer.BoundedBuffer.CountStep` | OS2 predaja/src/myBuffer.cpp:60-76 | on the array and the semaphores, the next step of a getCnt is the protocol's step |

## Left out

- Buddy.BuddyAllocator.Free: addresses between the end of the managed heap and HEAP_END_ADDR pass the code's guard; the model takes them as excluded by the caller, like any address that is not the start of a live block.
- Slab.KmemCache.Alloc: the code goes on to use the null slab when memory is exhausted; the model returns 0 there, and the contract says exactly when that happens.
- SlabLifetime.Lifetime: when an allocation finds no memory the client's run ends before the cache is destroyed, as the code has no defined behaviour from there on.
- Kmalloc.SmallBuffers.Kmalloc: the null cache that results when a class's cache cannot be created is reported as 0, where the code would go on to use it; the contract says exactly when that happens.
- Kmalloc.SmallBuffers.Retire: the code leaves the address of a destroyed class cache in its table; the model clears it, so that the class starts anew.
- KernelRuns.ExitSwitches: when nobody is ready an exiting thread runs on, finished; what its wrapper does then is machine code and not modelled.
- BufferTheorems.NoSpareSlot: the exact count that the method's name promises is false of a full myBuffer; the condition under which it holds is proved instead.
- The semaphores of `BoundedBuffer` are objects of their own, whose queues hold call numbers; with the kernel's semaphores they are connected on values (`BufferOnKernel`), not as the same objects.
- A cache's own fields are held in the object, not in the bytes of its page; the links and fields of its slabs, the free objects and the blocks are in the bytes.
- Constructors and destructors of objects are modelled by the bytes they write.
- The registry of caches, their names, the growth indicator, `kmem_cache_info` and other printing: no effect on allocation.
- `MemoryAllocator.cpp` is not part of this model; new thread control blocks and semaphores are fresh objects.
- A deleted semaphore's memory: the code deletes it before the woken threads read its flag; only the wake-ups are modelled, and so the return value of `wait` is not.
- Thread ids are assigned by the caller of creation; the code sets the id after queueing the thread.
- Machine code, stacks, registers and traps other than system calls and the timer; a switch is a change of `running`.
- Console, getc and putc, and the interrupt controller.
- 32-bit overflow of semaphore values, slice counters and shrunk byte counts: modelled as unbounded integers. The 64-bit decrement of the sleep list's head is modelled with its wrap-around and proved never to wrap.
- The destructor of the buffers, which drains them outside the protocol.
- The narrowing of a value to a char where `myBuffer::put` is called: the argument of a put is the value as it receives it.
- C and C++ system call wrappers, periodic threads, user programs and test drivers.
