# Verified models of RT-Thread's single-core kernel structures and two of its tools

This Dafny project models, and proves properties of:

- the three heap managers: the memheap allocator (two interlocked doubly linked lists over a pool of
  bytes), the small-memory allocator (an offset chain with a search hint) and the slab allocator
  (zones of chunks above an address-sorted page list);
- the hard timers: a skip list sorted under tick comparison modulo 2^32, driven by the system tick;
- the scheduler: ready queues found through one- or two-level bit maps, preemption, rotation, time
  slices, and the thread states behind them;
- interprocess communication: mutexes with priority inheritance, events, mailboxes, message queues,
  each as a machine whose steps are the sections that run with interrupts disabled, so that every
  interleaving of callers is a run;
- the Kconfig engine: the value cache and its early-stopping invalidation, the search for dependency
  loops, printing and parsing of expressions;
- the writer of ROM filesystem images, and reading such an image back.

## How the files fit together

Most components have two modules. The first (`MemSpec`, `TimerSpec`, `MutexSpec`, ...) gives every
operation as a function on the component's state and proves what the operations keep, over every run.
The second (`Mem`, `Timer`, `Mutex`, ...) holds the state in an object and updates it the way the source
does, with its loops and in its order; each method's postcondition ties the new state to the
specification function of the old one. Where the source keeps pointers, the object keeps link fields and
a ghost sequence says which list they form.

| file | contents |
|---|---|
| `Ring.dfy` | the circular doubly linked list underneath everything |
| `Arith.dfy`, `Wrappers.dfy`, `Bits.dfy` | alignment and division; an optional value; words as bit sets and find-first-set |
| `Ram.dfy` | the bytes of a heap, what header stores overwrite, and copying |
| `MemHeap.dfy`, `Mem.dfy`, `Pages.dfy`, `Slab.dfy` | the heap managers |
| `SlabRuns.dfy` | interleaved calls of the slab allocator, which gives up its semaphore around page calls |
| `Timer.dfy` | the timer skip list and its reference list |
| `Scheduler.dfy` | ready queues, bit maps, thread calls |
| `WaitList.dfy`, `Mutex.dfy`, `Event.dfy`, `Mailbox.dfy`, `MsgQueue.dfy` | interprocess communication |
| `KconfigExpr.dfy`, `KconfigLoop.dfy`, `KconfigCache.dfy` | the Kconfig engine |
| `Romfs.dfy` | the image writer and a reader |

`dafny verify dfyconfig.toml` checks the whole project. No proof rests on an unproved assumption.

## What the models assume

- Sizes and addresses are natural numbers; the overflow of an alignment near the top of the address
  space is outside the heap models. Ticks, the mutex's hold count, the event set, the ready words and the
  ROM filesystem's words have the width the source gives them.
- The mailbox's and the message queue's wait lists take the priorities of the threads as they are at that
  moment, as a parameter of the step.
- Timeout functions do not operate on timers, a timer is started by one thread at a time, and nobody starts a
  timer between the section of an `rt_timer_stop` of it and the clearing of the flag behind that section:
  `Timer.TimerList.EndStop` shows that flags and list agree afterwards exactly then.
  `rt_timer_start` reads the tick between its two sections with interrupts enabled, so ticks and other calls
  can come in between. The timer model is parameterised by `lag`: no timer is linked `lag` or more ticks after
  its deadline, and a timer's setting is at least 1 tick and `lag` ticks below RT_TICK_MAX / 2. With `lag`
  zero these are the settings that `rt_timer_start` asserts and the runs in which every timer is linked
  before its deadline.
- In the mutex model priorities change through the mutex only; the scheduler lock is nested less deeply
  than its counter counts.
- Kconfig: no choices. A value is read where its computation ends, that is where it nests at most n deep for
  some n; `KconfigModel.CheckLoops` and `KconfigModel.EndsExactly` say when that holds of all symbols. The
  cache is right in every configuration, whether or not that holds.
- Python's `int(s, base)`, `str`, `hex` and the order of strings are parameters of the Kconfig model.
- ROM filesystem images are little-endian, and names do not contain a NUL.

## Where the code does not do what one might expect

Each of these has its exact condition and an input.

- The small-memory allocator does not find a perfect fit that ends at the end of the heap
  (`MemSpec.MallocFails`, `MemSpec.WholeHeapRefused`), and a shrinking `rt_realloc` can leave the search hint
  above a free block, so that memory is lost until something below is freed (`MemSpec.ShrinkInv`,
  `MemSpec.ShrinkLosesMemory`).
- The memheap's minimum of 12 bytes keeps pointers aligned exactly when RT_ALIGN_SIZE divides 12
  (`MemHeapSpec.AlignedPointers`; the second of two requests for 0 bytes is the input).
- Slab chunks of a power-of-two size are aligned to their size exactly when their zone is
  (`SlabSpec.PowerOfTwoAligned`), and on the smaller heaps the first request of 8000 bytes gets an 8 KB chunk
  that is aligned to 4 KB only (`SlabSpec.MisalignedZone`).
- A timer whose `rt_timer_start` is interrupted until its deadline has come fires late, and its later
  periods are shifted by as much (`TimerSpec.PeriodicTimes`, `TimerSpec.LateStart`).
- An owner that takes a mutex more than 256 times keeps it for fewer releases than takes
  (`MutexSpec.LastRelease`, `MutexSpec.LostAfter257`). An inherited priority outlasts the timeout of the
  thread it came from exactly when that was the only waiter of its urgency and the owner was raised
  (`MutexSpec.BoostOutlastsTimeout`, `MutexSpec.FifoBoostOutlastsTimeout`, `MutexSpec.TimeoutInversion`). With the FIFO flag the new owner inherits
  nothing from the threads that waited before it got the mutex (`MutexSpec.ReleaseInherits`,
  `MutexSpec.FifoRun`, `MutexSpec.FifoInversion`).
- A user value can take a symbol above its visibility and what selects it, exactly where imply with y turns m into
  y (`KconfigModel.TriLaws`; a tristate symbol implied with y that is visible as m and that the user sets to m is
  the input).
- The search for dependency loops does not see that tristate symbols look at MODULES, which they do exactly
  when a visibility or value comes out as m (`KconfigModel.ReadsModules`). It can therefore pass a
  configuration in which computing a value never ends; `KconfigModel.EndsExactly` says when it does, and
  the input is a tristate symbol that selects MODULES and that the user sets to m
  (`KconfigModel.UnseenLoopExists`).

## Model

| member | source | states |
|---|---|---|
| Ring.InsertAfterRing | include/rtservice.h:58-65 | the four link writes of an insertion turn a ring into the ring with the node behind the given one, in next and prev alike |
| Ring.RemoveRing | include/rtservice.h:86-92 | unlinking a node leaves a ring of the other nodes in their order |
| Ring.Links.InsertAfter | include/rtservice.h:58-65 | linking a node in place inserts it behind the given node; other lists are untouched |
| Ring.Links.InsertBefore | include/rtservice.h:73-80 | linking a node before the head appends it to the list |
| Ring.Links.Remove | include/rtservice.h:86-92 | the node leaves its list and becomes a list of its own |
| Ring.Links.IsEmpty | include/rtservice.h:98-101 | true exactly when the ring is the head alone |
| Ring.Links.Len | include/rtservice.h:107-118 | counts the nodes other than the head |
| MemHeapSpec.AllocInv | src/memheap.c:138-281 | an allocation keeps the invariant (tiling, free list, no two free neighbours, exact totals); the block it hands out was not live and is at least as large as the request, and every other block in use stays where it is and as long as it is; it fails exactly when the request is not below the free total or no free block is large enough, changing nothing |
| MemHeapSpec.AllocMeans | src/memheap.c:170-258 | an allocation takes the first block of the free list that is large enough: up to the end of the request when the rest can hold a block, which then goes in front of the list, and as a whole otherwise |
| MemHeapSpec.FreeInv | src/memheap.c:495-595 | freeing keeps the invariant, ends only the life of that block, merges it with free neighbours on either side, and leaves every other block in use its place and length |
| MemHeapSpec.FreeMeans | src/memheap.c:524-588 | a freed block goes in front of the free list, unless its left neighbour is free and takes it in; a free right neighbour leaves the list |
| MemHeapSpec.ReallocInv | src/memheap.c:284-492 | reallocation by growing in place, cutting off the tail or moving keeps the invariant, returns a block that holds the request, and leaves every other block in use its place and length; a failed call changes nothing |
| MemHeapSpec.ReallocMeans | src/memheap.c:306-491 | a live block is resized in place exactly when it holds the request or its free right neighbour leaves more than the minimum, and then ends where it did or right behind the request; otherwise it moves and the old one is no longer live, and the call fails exactly when no block can be allocated either |
| MemHeapSpec.ReallocEnds | src/memheap.c:294-309 | a size of 0 frees the block, and NULL is an allocation that fails exactly when no block can be allocated |
| MemHeapSpec.CutInv | src/memheap.c:419-491 | the tail cut off a used block is free and merged with a free right neighbour; the total stays exact |
| MemHeapSpec.RunKeepsInv | src/memheap.c:138-595 | every run of alloc, realloc and free keeps the invariant |
| MemHeapSpec.StepPeak | src/memheap.c:226-243 | max_used_size follows the use wherever that rises, and never falls |
| MemHeapSpec.RunKeepsBlock | src/memheap.c:138-595 | through every run a live block that is not passed to free or realloc stays live and keeps its place and length |
| MemHeapSpec.GrantLasts | src/memheap.c:138-595 | what an allocation granted in any state of the invariant still holds the request after every run that does not free or resize it |
| MemHeapSpec.NothingLive | src/memheap.c:50-121 | when nothing is live the pool is the single free block it started as, with the same free total |
| MemHeapSpec.EveryRun | src/memheap.c:50-595 | from a fresh pool, in every run: blocks tile the pool, the free list is exactly the free blocks, no two neighbours are free, available_size is the sum of the free sizes, and with nothing live the initial block is back |
| MemHeapSpec.AlignedPointers | src/memheap.c:147-150 | in a pool for two blocks, every pointer of every run is aligned to RT_ALIGN_SIZE exactly when RT_ALIGN_SIZE divides the minimum of 12 bytes |
| MemHeap.HeadersMissPayloads | src/memheap.c:311-491 | header writes into existing headers or into a new header inside the given block change no byte of any other live payload |
| MemHeap.MemHeap.constructor | src/memheap.c:50-121 | the pool becomes one free block and the used tailer, linked in both lists |
| MemHeap.MemHeap.Search | src/memheap.c:169-180 | walking the free list stops at its first block that is large enough |
| MemHeap.MemHeap.Alloc | src/memheap.c:138-281 | the links, magic bits and counters rewritten in place are those of the specified allocation, and no live payload changes |
| MemHeap.MemHeap.Free | src/memheap.c:495-595 | the same for freeing, with merging left and right |
| MemHeap.MemHeap.Realloc | src/memheap.c:284-492 | the same for reallocation; the first bytes both sizes share survive wherever the block ends up, and no other payload changes |
| MemHeap.MemHeap.GrowInPlace | src/memheap.c:311-402 | the block grows into its free right neighbour, whose rest stays free, and keeps its bytes |
| MemHeap.MemHeap.Shrink | src/memheap.c:419-491 | the tail becomes free and the bytes in front of it stay |
| MemSpec.FindSpec | src/mem.c:305-311 | the search returns the first free block from its start that fits and begins below mem_size - size, or none |
| MemSpec.SearchFromHint | src/mem.c:305-311 | starting at lfree finds what starting at the bottom of the heap finds, as long as lfree is the lowest free block |
| MemSpec.MallocFails | src/mem.c:306-410 | an allocation of an acceptable size fails exactly when every fitting free block from lfree on is a perfect fit ending at the heap's end, in every state of every run |
| MemSpec.WholeHeapRefused | src/mem.c:306 | a fresh heap of 300 bytes refuses a request of 300 bytes |
| MemSpec.MallocInv | src/mem.c:272-410 | an allocation keeps the offset chain, its prev links, coalescing, exact used_mem and the lowest lfree; the block handed out was not live |
| MemSpec.MallocMeans | src/mem.c:305-387 | an allocation takes the lowest fitting block from the hint on, up to the end of the request when the rest can hold a block and as a whole otherwise |
| MemSpec.MallocKept | src/mem.c:272-410 | the block granted is at least as large as the request, and every other block in use stays where it is and as long as it is |
| MemSpec.StepPeak | src/mem.c:347-382 | max_mem follows used_mem wherever that rises, and never falls |
| MemSpec.PlugInv | src/mem.c:156-194 | closing the holes around a freed block restores coalescing and keeps lfree lowest |
| MemSpec.FreeInv | src/mem.c:546-609 | freeing keeps the invariant and the lowest lfree, ends exactly that block's use and leaves the others their places and lengths |
| MemSpec.ShrinkInv | src/mem.c:471-498 | shrinking keeps the invariant; lfree stays the lowest free block exactly when it lay below the new free block or the right neighbour was free |
| MemSpec.ReallocInv | src/mem.c:421-510 | reallocation keeps the invariant, leaves every other block in use its place and length, and returns a block that holds the request; a failed call changes nothing |
| MemSpec.ReallocMeans | src/mem.c:459-510 | a live block stays in place exactly when it has the aligned size already or is longer by more than a header and the minimum, and then ends right behind the request; otherwise it moves and the old one is no longer live, and the call fails exactly when rt_malloc finds nothing |
| MemSpec.ReallocEnds | src/mem.c:427-451 | more than the heap is refused, a size of 0 frees the block, and NULL is an allocation |
| MemSpec.EveryRun | src/mem.c:204-609 | in every run the invariant holds; in every run of malloc and free lfree is the lowest free block and the search from it agrees with the search from offset 0 |
| MemSpec.RunKeepsBlock | src/mem.c:272-609 | through every run a live block that is not passed to free or realloc stays live and keeps its place and length |
| MemSpec.GrantLasts | src/mem.c:272-609 | what an allocation granted still holds the request after every run that does not free or resize it |
| MemSpec.EveryPointerAligned | src/mem.c:293-299 | in every run, realloc included, each pointer handed out is a multiple of RT_ALIGN_SIZE |
| MemSpec.NothingLive | src/mem.c:204-257 | with nothing live the heap is one free block and used_mem is 0 |
| MemSpec.HintAtEnd | src/mem.c:305-311 | with lfree at heap_end every request fails |
| MemSpec.ShrinkLosesMemory | src/mem.c:471-498 | a concrete run after which 280 bytes are free and no request can be met |
| Mem.HeadersMissPayloads | src/mem.c:318-348 | header writes into existing headers or into a new header inside the given block change no payload byte of any other block in use |
| Mem.SmallMem.Search | src/mem.c:305-311 | the loop over the chain finds what the specified search finds |
| Mem.SmallMem.Malloc | src/mem.c:272-410 | header fields at offsets, lfree and the counters are those of the specified allocation, and no payload in use changes |
| Mem.SmallMem.PlugHoles | src/mem.c:156-194 | merging with the next and the previous block in place is the specified merging |
| Mem.SmallMem.Free | src/mem.c:546-609 | freeing in place is the specified freeing, and no other payload changes |
| Mem.SmallMem.Realloc | src/mem.c:421-510 | reallocation in place is the specified one; the bytes both sizes have in common survive wherever the block ends up, and no other payload changes |
| Ram.Memcpy | src/mem.c:505 | copies n bytes between two places apart from each other and changes no other byte |
| PageList.Unique | src/slab.c:236-322 | a sorted list of maximal free runs is determined by its set of free pages |
| PageList.FreeUndoesAlloc | src/slab.c:236-322 | freeing what was just allocated restores the identical list |
| PageList.HistoryCanonical | src/slab.c:236-334 | after every history the list consists of the maximal free runs in address order, within the memory given |
| PageList.HistoryIndependent | src/slab.c:236-334 | two histories that leave equal live pages leave equal lists |
| PageList.PageAllocator.Alloc | src/slab.c:236-270 | takes the lowest place with enough free pages, removes exactly these pages from the free set, and fails only when there is no such place |
| PageList.PageAllocator.Free | src/slab.c:272-322 | adds exactly these pages to the free set, merged with adjacent runs |
| SlabSpec.ZoneIndexSpec | src/slab.c:401-459 | the class chosen holds the request and the next smaller class does not |
| SlabSpec.FindOwner | src/slab.c:795-828 | memusage leads from any live address to its zone, or to the size of its large block |
| SlabSpec.LiveApart | src/slab.c:478-667 | live blocks do not overlap |
| SlabSpec.SameOwner | src/slab.c:478-667 | each byte of a live block lies in a page owned by its zone or by that large block |
| SlabSpec.ChunkIsMine | src/slab.c:540-582 | an address inside a zone is live only as that chunk of that zone |
| SlabSpec.TakeChunkInv | src/slab.c:540-582 | handing out a fresh or a freed chunk keeps z_nfree = fresh + freed, takes a full zone off its list, and grants an address that was not live |
| SlabSpec.FreshShape | src/slab.c:628-648 | a new zone of any class has at least two chunks, all inside its pages |
| SlabSpec.PowerTest | src/slab.c:635 | the test on size singles out the powers of two |
| SlabSpec.PowerOfTwoAligned | src/slab.c:631-648 | chunks of a power-of-two size are aligned to it exactly when the zone's first page is |
| SlabSpec.MisalignedZone | src/slab.c:339-399 | on every heap of 9 to 1024 pages of 4 KB from an even page on, the first request of 8000 bytes is granted an 8 KB chunk at an address that is 4096 modulo 8192 |
| SlabSpec.OpenZoneInv | src/slab.c:625-659 | opening a zone for a class and granting its first chunk keeps the invariant |
| SlabSpec.GrantLargeInv | src/slab.c:489-521 | granting a run of pages as one block keeps the invariant |
| SlabSpec.DropLargeInv | src/slab.c:795-820 | giving a large block back keeps the invariant and names exactly the pages to free |
| SlabSpec.PutChunkInv | src/slab.c:825-846 | a chunk given back joins its zone's free chunks, and a full zone returns to the list of its class |
| SlabSpec.EmptyZone | src/slab.c:848-855 | a zone with z_nfree equal to z_nmax has no live chunk |
| SlabSpec.ParkInv | src/slab.c:854-874 | an empty zone moves from its class to zone_free |
| SlabSpec.DismissInv | src/slab.c:876-900 | a zone leaving zone_free gives all its pages back and takes none of another owner's |
| SlabSpec.MallocFails | src/slab.c:478-667 | rt_malloc returns RT_NULL exactly for 0 bytes, for a large request without as many free pages in a row, or for a small one without a zone of its class, an idle zone or room for a new zone |
| SlabSpec.MallocClass | src/slab.c:489-659 | a small block is a chunk of a zone of the class that zoneindex gives, a large one has the request's pages |
| SlabSpec.MallocTakes | src/slab.c:489-659 | a small request is served by the first zone of its class with its next chunk, or else by the first idle zone, or else by a new one; exactly the pages of a large block or of a new zone leave the free list, and max_mem follows used_mem |
| SlabSpec.MallocKeeps | src/slab.c:478-667 | an allocation keeps all accounts, moves pages between the free list and the blocks only, and grants a block nobody has, at least as large as asked, or changes nothing |
| SlabSpec.FreeKeeps | src/slab.c:771-904 | freeing keeps all accounts, ends exactly one block's life and loses no page |
| SlabSpec.FreeGives | src/slab.c:795-904 | a large block gives back its pages; a zone whose last chunk comes back while there are others of its class leaves the class, and becomes idle or gives back its pages when enough zones are idle; no other zone or page changes |
| SlabRuns.SectionKeeps | src/slab.c:478-904 | every section of rt_malloc and rt_free between giving up and taking the heap semaphore keeps all accounts, keeps the pages in threads' hands nobody else's, and loses no page |
| SlabRuns.EveryRun | src/slab.c:478-904 | in every interleaving of the sections of any threads' rt_malloc and rt_free from a fresh heap: chunk counts, zone lists and page owners agree, at most two zones are idle, every page is owned, free or in one thread's hands, live blocks do not overlap, memusage leads back from each, and used_mem is the sum of their sizes |
| SlabRuns.MallocIsSections | src/slab.c:478-667 | a call of rt_malloc that nobody interrupts is its sections one behind the other |
| SlabRuns.FreeIsSections | src/slab.c:771-904 | a call of rt_free that nobody interrupts is its sections one behind the other |
| Slab.SlabHeap.Malloc | src/slab.c:478-667 | zones, lists, usage marks and counters are those of the specified step, and it fails exactly when that does |
| Slab.SlabHeap.MallocLarge | src/slab.c:489-521 | the lowest run of pages that is large enough becomes the block, with its usage mark written; fails exactly without such a run |
| Slab.SlabHeap.FromZone | src/slab.c:540-582 | the first zone of the class yields its next fresh chunk, or the first of its freed ones, and leaves the list when it is full |
| Slab.SlabHeap.FromNewZone | src/slab.c:585-659 | the first idle zone, or a new one of the lowest pages there are, is laid out for the class and yields its first chunk; fails exactly when there is neither |
| Slab.SlabHeap.Free | src/slab.c:771-904 | a large block gives back its pages; a chunk returns to its zone, which becomes idle when it is empty and not the only one of its class |
| Slab.SlabHeap.RetireZone | src/slab.c:854-900 | an empty zone is parked, and beyond the threshold the zone in front of zone_free gives up its pages, marks and place |
| TimerSpec.StartSound | src/timer.c:296-396 | starting keeps the list ordered by deadline and start, with exactly this timer added |
| TimerSpec.StopSound | src/timer.c:422-447 | stopping removes exactly this timer |
| TimerSpec.ArmSound | src/timer.c:324 | reading the tick gives a timer a deadline after now and moves no other timer |
| TimerSpec.LinkSound | src/timer.c:326-396 | linking keeps the list ordered by deadline and then by start, with exactly this timer added, also when its deadline has passed |
| TimerSpec.StartIsSteps | src/timer.c:296-396 | a start that is not interrupted is stopping, reading the tick and linking one behind the other |
| TimerSpec.TickFires | src/timer.c:494-553 | a tick fires exactly the timers due at the new time and those linked late, by deadline and then by start; the others keep their deadlines and periodic ones run again one period later |
| TimerSpec.RunInv | src/timer.c:296-553 | in every run, starts interrupted between their sections included, the running timers that are overdue between ticks are exactly those linked late since the last tick, and all deadlines lie within half the tick range |
| TimerSpec.PeriodicTimes | src/timer.c:310-553 | a periodic timer with period P that reads the tick at s and is linked at l has fired at exactly s+P, s+2P, ... when l lies before s+P, and otherwise at exactly l+1, l+1+P, ..., whatever happens to other timers |
| TimerSpec.LateStart | src/timer.c:324-327 | with a period of one tick, a start at tick 0 interrupted by one tick fires at tick 2 |
| Timer.Compare | src/timer.c:359-363 | the subtraction modulo 2^32 orders two deadlines within half the range of now correctly |
| Timer.DueNow | src/timer.c:516-519 | the comparison in rt_timer_check tells due and overdue timers from waiting ones across the wrap of the tick |
| Timer.TimerList.RowsNested | src/timer.c:342-391 | each row of the skip list is an ordered subsequence of the row below |
| Timer.TimerList.Search | src/timer.c:342-370 | the row-by-row search finds in each row the place behind all timers due no later |
| Timer.TimerList.Start | src/timer.c:296-412 | whatever rows the timer enters, the list becomes the reference list after a stable insertion, and the object stays valid |
| Timer.TimerList.BeginStart | src/timer.c:310-315 | the first section takes the timer out of all rows |
| Timer.TimerList.ReadTick | src/timer.c:324 | the timeout is the current tick plus the setting, modulo 2^32, and is that of the reference's deadline |
| Timer.TimerList.LinkTimer | src/timer.c:326-396 | the second section puts the timer at its place in the reference list however many ticks have passed, up to the lag |
| Timer.TimerList.SetTime | src/timer.c:471-473 | a new setting takes effect at the next start; running timers keep their deadlines |
| Timer.TimerList.SetPeriodic | src/timer.c:475-481 | the periodic flag changes and nothing else |
| Timer.TimerList.TestActive | src/timer.c:430-431 | the flag test in front of the section, which for a timer that no other thread is stopping succeeds exactly when it is running |
| Timer.TimerList.StopSection | src/timer.c:435-441 | the section takes the timer out of all rows however many ticks after the test, also when it has gone off meanwhile |
| Timer.TimerList.EndStop | src/timer.c:443-444 | after the late clearing of the flag the flags agree with the list exactly when nobody has started the timer since the section |
| Timer.TimerList.Stop | src/timer.c:422-447 | a stop that is not interrupted takes the timer out of all rows and clears its flag; fails exactly when it is not running |
| Timer.TimerList.NextTimeout | src/timer.c:108-119 | gives the earliest deadline, or RT_TICK_MAX when nothing runs |
| Timer.TimerList.Check | src/timer.c:494-553 | the loop ends and fires exactly what the reference fires, in its order |
| Timer.TimerList.Tick | src/clock.c:72-98 | one tick followed by rt_timer_check is the reference's tick |
| Bits.TableLowest | src/kservice.c:1286-1304 | every entry of the table is the index of the lowest bit |
| Bits.FfsLowest | src/kservice.c:1316-1330 | find-first-set returns one more than the index of the lowest bit, and 0 for 0 |
| SchedulerSpec.LookUp | src/scheduler.c:162-184 | the level read off one or two levels of bits is the most urgent one with a ready thread |
| SchedulerSpec.GroupZero | src/scheduler.c:424 | the group word is zero exactly when no queue holds a thread |
| SchedulerSpec.InsertCore | src/scheduler.c:688-722 | inserting keeps: the ready threads are exactly the queued ones, once, at their own priority, and bits say which queues hold threads |
| SchedulerSpec.RemoveCore | src/scheduler.c:785-815 | removing keeps this for all other threads; bits are cleared exactly when the queue, and the byte, become empty |
| SchedulerSpec.ScheduleStays | src/scheduler.c:433-438 | a strictly more urgent running thread keeps the processor and nothing changes |
| SchedulerSpec.ScheduleSwitches | src/scheduler.c:439-462 | otherwise the first thread of the most urgent queue runs, and a running thread that gives way joins the end of its own queue |
| SchedulerSpec.ScheduleUrgent | src/scheduler.c:411-523 | after an unlocked rt_schedule the current thread is no less urgent than any ready thread, and it runs if anything was ready |
| SchedulerSpec.ScheduleKeeps | src/scheduler.c:411-523 | rt_schedule starts and stops no thread and changes no priority |
| SchedulerSpec.Rotation | src/scheduler.c:411-523 | n yields turn the circle of current thread and its queue n places and leave the other queues alone |
| SchedulerSpec.RunsAfter | src/scheduler.c:411-523 | the thread at position i of the current thread's queue runs after exactly i + 1 yields |
| SchedulerSpec.MakeReadyMeans | src/thread.c:288-318 | a thread that is started has its initial priority with its masks and is the last of that queue; all others stay as they are |
| SchedulerSpec.ResumeMeans | src/thread.c:706-740 | resuming succeeds for suspended threads only; such a thread runs on when it is the current one and otherwise is the last of the queue of its priority |
| SchedulerSpec.SuspendMeans | src/thread.c:657-696 | suspending succeeds for ready and running threads only; such a thread is in no queue afterwards and the queues keep the others in order |
| SchedulerSpec.CloseMeans | src/thread.c:331-461 | a closed thread is in no queue, and all others stay as they are |
| SchedulerSpec.LaunchMeans | src/scheduler.c:246-270 | the first thread to run is the first of the most urgent queue |
| SchedulerSpec.CallMeans | src/thread.c:80-771 | every call makes exactly the threads it starts runnable and exactly those it stops not, and changes no priority but that of a thread that is started or given a new one |
| SchedulerSpec.CallUrgent | src/scheduler.c:411-523 | calls that end in the scheduler leave no ready thread more urgent than the current one, unless the scheduler is locked; unlocking counts down to zero |
| SchedulerSpec.LockMeans | src/scheduler.c:855-940 | a locked scheduler switches to nobody, and locks nest |
| SchedulerSpec.Slice | src/clock.c:84-95 | the current thread keeps the processor for its remaining ticks; the last one renews the slice and yields |
| SchedulerSpec.SuspendUndoesResume | src/thread.c:657-740 | suspending a thread just resumed puts back every variable, bits included |
| SchedulerSpec.ChangePriorityValid | src/thread.c:562-613 | changing the priority of a thread in any state keeps the invariant, masks included |
| SchedulerSpec.ChangePriorityMeans | src/thread.c:562-613 | the thread has the new priority with its masks, in its old state, and is the last of its new queue when it is ready; every other thread and the order of the others stays |
| SchedulerSpec.EveryRun | src/scheduler.c:191-940 | in every run of the thread and scheduler calls: ready threads are exactly the queued ones, each once and at its own priority, bits are set exactly for queues that hold threads, and only the current thread runs |
| Scheduler.Kernel.constructor | src/scheduler.c:191-239 | the scheduler starts with empty queues and clear bits |
| Scheduler.Kernel.Create | src/thread.c:117-208 | a new thread has its priority, no masks and no place in a queue |
| Scheduler.Kernel.GetHighest | src/scheduler.c:162-184 | returns the most urgent level and its first thread |
| Scheduler.Kernel.Reschedule | src/scheduler.c:411-523 | queues, bits, states and the current thread are those of the specified schedule |
| Scheduler.Kernel.InsertThread | src/scheduler.c:688-722 | queue, bits and state after the insertion |
| Scheduler.Kernel.RemoveThread | src/scheduler.c:785-815 | queue and bits after the removal |
| Scheduler.Kernel.StartThread | src/thread.c:288-320 | computes the masks, makes the thread ready and schedules only if the scheduler has started |
| Scheduler.Kernel.SuspendThread | src/thread.c:657-696 | takes a ready or running thread out; fails and changes nothing otherwise |
| Scheduler.Kernel.ResumeThread | src/thread.c:706-740 | makes a suspended thread ready; fails and changes nothing otherwise |
| Scheduler.Kernel.TimeoutThread | src/thread.c:749-771 | makes the thread ready and schedules |
| Scheduler.Kernel.ControlPriority | src/thread.c:562-613 | moves a ready thread to the end of its new queue, and sets priority and masks otherwise |
| Scheduler.Kernel.CloseThread | src/thread.c:331-461 | takes a started thread out of its queue and closes it |
| Scheduler.Kernel.ExitThread | src/thread.c:80-115 | closes the current thread and switches |
| Scheduler.Kernel.TickIncrease | src/clock.c:84-95 | uses up a tick of the slice and yields at its end |
| Scheduler.Kernel.EnterCritical | src/scheduler.c:855-870 | one more level of locking |
| Scheduler.Kernel.ExitCritical | src/scheduler.c:915-940 | one level less; at level zero it schedules if the scheduler has started |
| Scheduler.Kernel.StartScheduler | src/scheduler.c:246-270 | the most urgent ready thread becomes the running one |
| WaitList.PlaceSpec | src/ipc.c:93-118 | a thread joins behind all waiters that are at least as urgent and before the first that is less |
| WaitList.JoinedQueues | src/ipc.c:79-122 | the list is the old one in its order with the thread at one more place: the end, or else behind all that are as urgent and before the first that is less |
| WaitList.ListSuspend | src/ipc.c:79-122 | the loop puts the thread at that place, or at the end with the FIFO flag |
| MutexSpec.TakeInv | src/ipc.c:653-778 | taking, taking again and waiting keep: value is 1 exactly without an owner, waiters have an owner, and every thread but the owner has its own priority |
| MutexSpec.TakeMeans | src/ipc.c:676-760 | a take gets the mutex exactly when nobody else owns it; otherwise the caller joins the waiters in their order when it may wait and the owner becomes at least as urgent, or nothing changes at all |
| MutexSpec.TakeOrdered | src/ipc.c:79-122 | with the priority flag the waiters stay ordered by priority and then by arrival |
| MutexSpec.TakeInherits | src/ipc.c:714-732 | the owner is at least as urgent as every waiter, and exactly as urgent as the most urgent among itself and all who came since it got the mutex |
| MutexSpec.ReleaseMeans | src/ipc.c:807-870 | only the owner can release; while the count stays above zero only the count changes, and then the owner gets its own priority back and the first waiter has the mutex, or nobody has |
| MutexSpec.ReleaseOrdered | src/ipc.c:789-880 | releasing keeps all this |
| MutexSpec.HandOff | src/ipc.c:829-860 | the last release gives the mutex to the most urgent waiter that came first, and the old owner gets its own priority back |
| MutexSpec.ReleaseInherits | src/ipc.c:840-860 | with the FIFO flag the thread that came first gets the mutex, and it is as urgent as all who still wait exactly when no waiter is more urgent than it by its own priority |
| MutexSpec.FifoRun | src/ipc.c:653-880 | in every run with the FIFO flag threads wait in the order they came, and the owner is at least as urgent as every waiter that came after it got the mutex, so that only earlier ones can be more urgent |
| MutexSpec.FifoInversion | src/ipc.c:840-860 | a run of three takes and a release with the FIFO flag after which the owner is less urgent than a waiter |
| MutexSpec.BoostOutlastsTimeout | src/thread.c:749-771 | a timeout leaves the owner with the urgency of a thread that no longer waits exactly when the owner was raised and the thread was the first waiter and strictly more urgent than the second; later timeouts do not mend it |
| MutexSpec.FifoBoostOutlastsTimeout | src/thread.c:749-771 | with the FIFO flag the same happens exactly when the owner is raised to the urgency of the thread that gives up, all other waiters that came since the owner got the mutex are less urgent, and none of the earlier ones is just as urgent |
| MutexSpec.BoostLasts | src/ipc.c:829-860 | as long as the mutex stays with its owner the owner loses none of its urgency, in every run and with either flag |
| MutexSpec.BlockedWaits | src/ipc.c:714-880 | in every run, with either flag, a thread whose take blocked is in the wait list until its time is over or a release makes it the owner |
| MutexSpec.TimeoutInversion | src/ipc.c:829-860 | with either flag, a run of two takes and a timeout after which the owner keeps priority 5 with nobody waiting, until its release gives it back 20 |
| MutexSpec.HoldTells | src/ipc.c:683 | after n takes of a free mutex the thread owns it, and hold is zero exactly when n is a multiple of 256 |
| MutexSpec.KeepsFor | src/ipc.c:827-830 | a thread that has taken a free mutex n times keeps it for exactly (n - 1) mod 256 releases |
| MutexSpec.LastRelease | src/ipc.c:827-830 | after n takes of a free mutex it is the n-th release that lets it go exactly when n is at most 256 |
| MutexSpec.LostAfter257 | src/ipc.c:827-830 | after 257 takes the first release lets the mutex go |
| MutexSpec.EveryRun | src/ipc.c:653-880 | in every run of take, recursive take, release and timeout: value, owner and hold agree, waiters imply an owner and are stably sorted, the owner is at least as urgent as every waiter and raised only to the priority of a thread that came since it got the mutex, all others are at their own priority |
| Mutex.Mutex.TakeMutex | src/ipc.c:653-778 | the fields after the first section are those of the specified take |
| Mutex.Mutex.ReleaseMutex | src/ipc.c:789-880 | the fields after the release are those of the specified one; only the owner succeeds |
| Mutex.Mutex.TimeoutThread | src/thread.c:749-771 | the waiter leaves the list, nothing else changes |
| EventSpec.SendIsReceptions | src/ipc.c:1028-1110 | the pass over the waiters has the effect of a receive without waiting for each of them in queue order, on the set, on who wakes and on what each receives |
| EventSpec.RecvMeans | src/ipc.c:1126-1236 | a receiver gets exactly what is there of its bits when its wish is met, and clears them if it asked for that; otherwise it joins the waiters with exactly its wish when it may wait, others keep their wishes and order, or nothing changes |
| EventSpec.SendMeans | src/ipc.c:1028-1110 | a send of some bits wakes the first waiter exactly when the bits then there meet its wish |
| EventSpec.OthersMean | src/ipc.c:1248-1276 | a timeout takes just this thread out of the list; after a reset nobody waits and no wish is met |
| EventSpec.SendInRun | src/ipc.c:1028-1236 | this holds of every send in every run |
| EventSpec.PassLeaves | src/ipc.c:1053-1101 | nobody who stays is satisfied by the set that is left; who wakes and who stays split the waiters in their old order |
| EventSpec.PassConsumes | src/ipc.c:1053-1101 | what a clearing receiver takes no later one receives, and what is left is what was there less everything consumed |
| EventSpec.EveryRun | src/ipc.c:1028-1276 | in every run no waiting thread's condition is met by the stored set |
| EventSpec.BlockedWaits | src/ipc.c:1028-1276 | in every run a thread that blocked is in the wait list with its wish until its time is over, a send wakes it or the event is reset |
| Event.Event.Receive | src/ipc.c:1126-1236 | set, waiters and outcome after the first section are those specified |
| Event.Event.Signal | src/ipc.c:1028-1110 | set, waiters and woken threads after a send are those specified |
| Event.Event.Sweep | src/ipc.c:1053-1101 | the loop that removes waiters while it walks the list is the specified pass |
| Event.Event.Reset | src/ipc.c:1248-1276 | all waiters leave and the set is empty |
| MailboxSpec.SendInv | src/ipc.c:1441-1560 | a round of sending keeps: nothing lost or reordered, and while senders wait every free place has a woken sender on its way |
| MailboxSpec.SendMeans | src/ipc.c:1441-1560 | a sender gets through exactly when there is room, and then the first receiver is woken; otherwise it joins the waiting senders when it may wait, and mails and receivers stay as they are |
| MailboxSpec.RecvInv | src/ipc.c:1589-1713 | a round of receiving keeps the same, and while receivers wait every mail has a woken receiver on its way |
| MailboxSpec.RecvMeans | src/ipc.c:1589-1713 | a receiver gets the oldest mail exactly when there is one, and then the first sender is woken; otherwise it joins the waiting receivers when it may wait, and mails and senders stay as they are |
| MailboxSpec.FirstInFirstOut | src/ipc.c:1441-1713 | a receiver that gets through gets the oldest mail, and a sender's mail goes behind the others |
| MailboxSpec.NoDeadlock | src/ipc.c:1441-1713 | a mail never lies in the box while receivers wait and none is on its way, and senders and receivers never both wait with nobody on the way |
| MailboxSpec.OthersMean | src/ipc.c:1725-1757 | a timeout takes just this thread out of its list; a reset empties box and lists |
| MailboxSpec.EveryRun | src/ipc.c:1441-1757 | in every interleaving the mails received since the last reset are the first of those sent, the rest is in the ring, and no wakeup is lost |
| MailboxSpec.StaysWaiting | src/ipc.c:1441-1757 | in every interleaving a thread that blocked is in a wait list until its time is over, it is woken or the mailbox is reset |
| Mailbox.Mailbox.SendWait | src/ipc.c:1441-1560 | ring, offsets, count and wait lists after a round are those specified |
| Mailbox.Mailbox.Receive | src/ipc.c:1589-1713 | the same for receiving |
| Mailbox.Mailbox.Control | src/ipc.c:1725-1757 | a reset empties the ring and both wait lists |
| MsgQueueSpec.LinkInv | src/ipc.c:1999-2038 | linking a written node at the back or the front keeps every node in one place and every letter with its node |
| MsgQueueSpec.GrabMeans | src/ipc.c:1976-1997 | a sender gets the first free node exactly when its message fits and there is one, and the copy behind it changes this node only |
| MsgQueueSpec.LinkMeans | src/ipc.c:1999-2038 | the node and its letter are at the end of the queue, or in front for an urgent one, and the first receiver is woken |
| MsgQueueSpec.UnlinkInv | src/ipc.c:2160-2250 | taking the first node, or waiting, keeps the same |
| MsgQueueSpec.UnlinkMeans | src/ipc.c:2160-2250 | a receiver gets the first node with its letter exactly when there is one; otherwise it joins the waiting receivers when it may wait, and the queue stays as it is |
| MsgQueueSpec.ReadsLetter | src/ipc.c:2252-2253 | the receiver gets the letter as it was sent, as far as its buffer reaches |
| MsgQueueSpec.GiveBackMeans | src/ipc.c:2255-2261 | the receiver's node is free again and nothing else changes |
| MsgQueueSpec.OthersMean | src/ipc.c:2279-2325 | a timeout takes just this thread out of the list; a reset frees exactly the queued nodes and nobody waits any more |
| MsgQueueSpec.FirstInFirstOut | src/ipc.c:1963-2266 | without urgent messages and resets, what was queued followed by what is sent is what is received followed by what is queued |
| MsgQueueSpec.IsDeque | src/ipc.c:1963-2325 | in every run, with urgent messages and resets, what is received and what is left is what a deque gives when sends go to its back, urgent messages to its front and a reset empties it |
| MsgQueueSpec.UrgentIsNext | src/ipc.c:2053-2123 | an urgent message is the next one received, and the queue behind it is unchanged |
| MsgQueueSpec.EveryRun | src/ipc.c:1963-2325 | in every interleaving each node is in the queue, on the free list or in one caller's hands, the entry is the queue's length, and no wakeup is lost |
| MsgQueueSpec.StaysWaiting | src/ipc.c:1963-2325 | in every interleaving a receiver that blocked is in the wait list until its time is over, it is woken or the queue is reset |
| MsgQueue.MessageQueue.constructor | src/ipc.c:1780-1827 | the pool is cut into as many nodes as fit, counted in 16 bits, all free |
| MsgQueue.MessageQueue.Grab | src/ipc.c:1976-1995 | hands out the first free node, or reports a message that is too long or a full queue |
| MsgQueue.MessageQueue.LinkBack | src/ipc.c:2004-2038 | links behind the tail, setting the head of an empty queue, and wakes the first receiver |
| MsgQueue.MessageQueue.LinkFront | src/ipc.c:2092-2122 | links before the head, setting the tail of an empty queue, and wakes the first receiver |
| MsgQueue.MessageQueue.Unlink | src/ipc.c:2160-2250 | takes the first node, clearing the tail of a queue of one, or waits |
| MsgQueue.MessageQueue.GiveBack | src/ipc.c:2255-2261 | the node joins the free list |
| MsgQueue.MessageQueue.Control | src/ipc.c:2279-2325 | a reset moves the queued nodes to the free list one by one; nodes in callers' hands stay there |
| KconfigExpr.SameOperands | tools/kconfiglib.py:5127-5169 | the right-nested form has the same list of top-level operands |
| KconfigExpr.SameValue | tools/kconfiglib.py:4986-5044 | the right-nested form has the same tristate value under every assignment |
| KconfigExpr.ValueLaws | tools/kconfiglib.py:4986-5044 | && is the lesser and || the greater value, ! turns the scale n, m, y round and exchanges the two |
| KconfigExpr.PrintParse | tools/kconfiglib.py:2737-2821 | parsing what was printed gives the right-nested form and stops where the print ends, with m rewritten or not |
| KconfigExpr.RoundTrip | tools/kconfiglib.py:5059-5100 | printing and parsing a line gives the right-nested form, its operand lists and its value |
| KconfigExpr.RoundTripCondition | tools/kconfiglib.py:2737-2821 | an expression comes back unchanged exactly when it is right-nested; in conditions m comes back as m && MODULES |
| KconfigExpr.LineIsSpelled | tools/kconfiglib.py:2737-2821 | a line is accepted exactly when its tokens spell an expression of the grammar, the result is that expression, and no line spells two |
| KconfigParser.Parser.ParseExpr | tools/kconfiglib.py:2737-2777 | the recursive descent over the token cursor accepts and returns what the grammar function does |
| KconfigParser.Parser.ParseAndExpr | tools/kconfiglib.py:2779-2787 | the same for the operands of && |
| KconfigParser.Parser.ParseFactor | tools/kconfiglib.py:2789-2821 | the same for symbols, relations, ! and parentheses |
| KconfigParser.Parser.ParseLine | tools/kconfiglib.py:2001-2007 | the same for a whole line without extra tokens |
| KconfigLoop.AllFinished | tools/kconfiglib.py:5486-5558 | when the search finishes every symbol there is no dependency loop |
| KconfigLoop.Checker.FoundLoop | tools/kconfiglib.py:5593-5600 | a way back from a symbol being visited to a dependent of cur becomes a loop through cur when cur is where it started, and a way back to cur otherwise |
| KconfigLoop.Checker.CheckSymbol | tools/kconfiglib.py:5517-5558 | the search ends; it finishes the symbol, or carries a chain back to a symbol being visited, or raises a real loop |
| KconfigLoop.Checker.CheckAll | tools/kconfiglib.py:871-873 | the error is raised exactly when the dependencies have a loop, and the loop shown is one; without an error every symbol is finished |
| KconfigModel.ValAgrees | tools/kconfiglib.py:3443-3662 | a symbol's value is determined by the symbols its computation looks at, short cuts included |
| KconfigModel.CompareMeans | tools/kconfiglib.py:5014-5040 | a relation holds exactly when the numbers of its sides are so related, where both sides are numbers and not both are strings, and otherwise when the strings are |
| KconfigModel.VisMeans | tools/kconfiglib.py:5215-5241 | a symbol is as visible as its most visible prompt, and y where that is m but the symbol cannot be m |
| KconfigModel.TriMeans | tools/kconfiglib.py:3585-3662 | the value of a bool or tristate symbol in terms of its visibility, user value, first default in effect and the values of select, imply and the direct dependencies |
| KconfigModel.TriLaws | tools/kconfiglib.py:3610-3649 | a symbol is at least what selects it, m only if it is tristate with modules on, has the user's value within the bounds, and exceeds both visibility and select exactly where imply with y turns m into y |
| KconfigModel.StringMeans | tools/kconfiglib.py:3561-3580 | the user's text counts when the symbol is visible, and otherwise the first default in effect |
| KconfigModel.NumMeans | tools/kconfiglib.py:3474-3553 | the user's number counts when the symbol is visible and the number lies in the first range in effect; otherwise the default does, moved to the nearer bound when it lies outside |
| KconfigModel.NumInRange | tools/kconfiglib.py:3474-3553 | so the value lies in the range in effect, provided that printing a number and reading it gives the number back |
| KconfigModel.ValUses | tools/kconfiglib.py:2827-2867 | every symbol a computation looks at is recorded as a dependency, except MODULES |
| KconfigModel.InvalidationIsEnough | tools/kconfiglib.py:4001-4030 | in every configuration, stopping at symbols without a cached visibility is safe: what is still cached has a computation that ends under the new user value too, and is right for it |
| KconfigModel.NothingToDo | tools/kconfiglib.py:4032-4047 | user values of symbols without a prompt affect nothing, so the cache stays right without invalidation |
| KconfigModel.SetMeans | tools/kconfiglib.py:3713-3796 | only the symbol's own user value changes; n, m and y are accepted as numbers and as letters where the type has them and stored as numbers, and number symbols accept only text that reads as a number |
| KconfigModel.OrderWithoutLoops | tools/kconfiglib.py:871-873 | for the graph that _build_dep records, the order in which the search finishes the symbols is a static order of computation once the symbols MODULES needs are put first, provided none of them is tristate |
| KconfigModel.OrderMeans | tools/kconfiglib.py:871-873 | where a static order of computation exists the recorded graph has no loop and MODULES depends on no tristate symbol |
| KconfigModel.CheckLoops | tools/kconfiglib.py:871-873 | a static order of computation exists exactly when the search finds no loop and MODULES depends on no tristate symbol, and then every computation ends under all user values; when the search finds no loop, all computations under given user values end exactly when MODULES can be computed from symbols that do not look at it |
| KconfigModel.ReadsModules | tools/kconfiglib.py:3647-3649 | a symbol without MODULES among its dependencies looks at MODULES exactly when it is tristate and its prompts' visibility or its value before promotion is m |
| KconfigModel.FinalIs | tools/kconfiglib.py:3443-3662 | the values that ending computations give satisfy the equations that define each symbol's value by the others, and what is looked at nests less deeply |
| KconfigModel.OnlySolution | tools/kconfiglib.py:3443-3662 | every assignment that satisfies these equations has the same values for all symbols whose computations end |
| KconfigModel.EndsExactly | tools/kconfiglib.py:3432-3440 | without loops in the recorded graph all computations end exactly when that of MODULES does, that is when nothing it needs looks at MODULES |
| KconfigModel.UnseenLoop | tools/kconfiglib.py:3432-3440 | a tristate symbol among what MODULES depends on excludes a static order of computation |
| KconfigModel.UnseenLoopExists | tools/kconfiglib.py:3432-3440 | for a prompted tristate T that selects MODULES the search finds no loop; the computations of T and MODULES look at each other and never end exactly when the user sets T to m |
| KconfigCache.Kconfig.BuildDep | tools/kconfiglib.py:2827-2867 | the dependents of a symbol are exactly the symbols in whose properties it occurs |
| KconfigCache.Kconfig.MakeDependOn | tools/kconfiglib.py:5244-5260 | the symbol joins the dependents of every item of the expression and of nothing else |
| KconfigCache.Kconfig.ExprValue | tools/kconfiglib.py:4986-5044 | evaluating through the cache gives the value computed from scratch and leaves everything looked at cached |
| KconfigCache.Kconfig.CompareValue | tools/kconfiglib.py:5014-5040 | the same for relations, as strings, as numbers, or as strings again when a number does not parse |
| KconfigCache.Kconfig.Visibility | tools/kconfiglib.py:5215-5241 | the visibility read is the one computed from scratch |
| KconfigCache.Kconfig.TriValue | tools/kconfiglib.py:3585-3662 | the tristate value read of a symbol whose computation ends is the one computed from scratch from the user values |
| KconfigCache.Kconfig.StrValue | tools/kconfiglib.py:3443-3583 | the string value read of a symbol whose computation ends is the one computed from scratch, ranges and clamping included |
| KconfigCache.Kconfig.RecInvalidate | tools/kconfiglib.py:4001-4030 | each symbol keeps all it had cached or loses all of it, whoever depends on a symbol that lost its values has lost them too, and only symbols that depend on this one, directly or through others, lose any |
| KconfigCache.Kconfig.InvalidateAll | tools/kconfiglib.py:2902-2910 | nothing stays cached |
| KconfigCache.Kconfig.SetValue | tools/kconfiglib.py:3713-3796 | the user value is stored when it is valid for the type, and the whole cache is right for it |
| KconfigCache.Kconfig.UnsetValue | tools/kconfiglib.py:3798-3805 | the user value is gone and the whole cache is right without it |
| Romfs.BlockLaid | tools/mkromfs.py:162-211 | every child of a folder has its entry in the folder's row, and the entry's addresses lead to its name and data |
| Romfs.ImageLaid | tools/mkromfs.py:230-241 | in the whole image every name and every piece of data lies where its entry says, at a multiple of four from the base |
| Romfs.ImageRound | tools/mkromfs.py:162-241 | following the addresses from the root rebuilds exactly the same tree |
| Romfs.Fits | tools/mkromfs.py:162-211 | a tree that ends below the end of the address space can be written, in exactly the size computed beforehand |
| Romfs.BlockExists | tools/mkromfs.py:162-211 | the children of a folder can be written exactly when the node written last has its data address and its size below 2^32 |
| Romfs.EveryTree | tools/mkromfs.py:230-241 | a tree with NUL-free names gets an image exactly when the root's data address and the node written last lie below 2^32; the image has the size computed beforehand and reads back as that tree |
| Romfs.WriteFolder | tools/mkromfs.py:162-211 | the loop over v_len, the entries and the payload writes the specified bytes |
| Romfs.WriteImage | tools/mkromfs.py:230-241 | root entry, its name and the tree are the specified image |

## Left out

- Multi-core code: spin locks, interprocessor interrupts and CPU binding are not visible in the single-core sources.
- Signals, the -RT_EINTR retry of `rt_mutex_take`, hooks, debug output, the object registry and hardware context switches.
- Semaphores and memory pools: their counters and lists are easy members next to mutexes and mailboxes.
- Soft timers and timeout functions that operate on timers.
- Several mutexes held by one thread, and priorities changed by others while a mutex is held.
- Deleting or detaching IPC objects, and `rt_thread_error` values other than the outcomes of the calls.
- rt_current_priority, which the scheduler writes and nothing reads.
- `rt_realloc` and `rt_calloc` of the slab allocator, and the memory-trace bookkeeping of all three allocators.
- `rt_mb_init`'s narrowing of the size to 16 bits: the model's ring has the size the mailbox has afterwards.
- Kconfig choices, macros, file inclusion, tokenizing, `assignable` and whether a symbol is written to .config.
- The warnings of the Kconfig engine, including the values that composing the warning about unsatisfied selects looks at.
- The C-source output of the ROM filesystem tool, and walking and sorting the directory.
- Scheduler.Kernel.RemoveThread: unlinks a thread from the ready queue of its priority; the other lists a suspended thread's list node can be in belong to the IPC models.
- Event.Event.Signal: reports the set each woken thread receives instead of writing it into the thread's event_set field.
- KconfigCache.Kconfig.MakeDependOn: skips undefined symbols as well as constant ones, because neither ever changes value.
