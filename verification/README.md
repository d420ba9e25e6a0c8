# Verified model of the page-heap collector

A Dafny model of the generational, chunked, mark-copy-rewrite-reclaim collector in
`crates/newgc-core/src/page_heap`, with proofs of what it is for: a collection keeps the
object graph, the allocator never hands out the same cell twice, pins hold, and the
stop-the-world handshake stops the world, loses no wakeup and hands every thread its roots back.

`dafny verify dfyconfig.toml` checks the whole project.

## How it is built

* **Memory.** `PageHeap` is a class over real arrays: cells as 64-bit words, start bits packed two to a
  cell, mark bits packed one to a cell, one card per 64 cells. Page descriptors, regions, free
  list, pins and counters are its fields. Pages have 8192 cells; the reservation's base and length are
  parameters. `View` is the pure snapshot (cells, start map, descriptors) that specifications speak of.
* **Layouts.** A `HeapLayout` is a record of functions with laws (`Lawful`). Both bindings of the repository
  discharge them from the bit operations.
* **One pass** (`Marking`, `EvacMarking`, `Copying`, `Rewrite`, `Reclaiming`, `Passes`, `PassChunks`, `Evacuation`). Each
  loop of the source is a loop here with its invariants. `Chunks`, `PassGraph`, `Following` and `Graphs` hold the graph
  theory: `Iso` is isomorphism under a relocation map, which composes over chunks and passes. `Demands` packs objects
  into pages as the allocator does, and `Plans` reads off the heap before a pass how it is cut into chunks, to which cell
  each object goes, whether the Free pages suffice, and whether a pointer leads back from a later chunk (`straight`).
  `Misreads` tells from the same plan whether the card scan of the pass comes through.
* **Collections** (`Remembered`, `RootReach`, `OldFields`, `Cycles`, `Reachability`). Minor with its cascade, major and
  full. A pass ends in one of three ways: `Done`, `Exhausted` (no Free page left) or `Misread` (the card scan came to a
  forwarding marker that decodes as no header, where the source panics, or whose decoding has it re-aim a cell that is
  not its business).
  `RootReach` says what roots and pins are owed whatever state the heap is in: what they reach within a generation is kept
  and still reached, and every root is aimed at what its target has become; `OldFields` that the fields of objects that
  do not move, found by the card scan, are as good as roots. `Foresight` computes the heap after a
  promoting pass from the heap before it, up to the likeness of `Likeness`, under which a further pass does the same.
* **Allocation** (`Alloc`, `Tlabs`), **large objects** (`LargeRuns`, `LargeMarking`, `LargePasses`) and **pins** (`Pins`).
* **Whole runs** (`Runs`, `RunCollections`, `SystemRuns`, `PinnedRuns`, `RootedRuns`, `Promotion`). A run is a sequence of
  commands (pin, unpin, allocate, store, flush, register, collect), each carried out by the method modelled for it; what
  a step does to objects, slabs, cards, roots, refcounts, counters and Free pages is a predicate those methods
  establish, and the theorems about runs are inductions over it. A minor or major that runs out of pages poisons the
  heap and the run goes on with it.
* **The safepoint** (`Safepoint`, `SafepointProof`, `Handback`, `Progress`). A labelled transition system over any number
  of mutators: each step takes or drops a lock, reads or writes one atomic, or sleeps or wakes. Runs are arbitrary
  sequences of steps of arbitrary mutators.

## Results worth knowing

* **Promotion in more than one chunk is not sound, and exactly when.** Phase 2 walks only the destination, the pinned
  objects and the visited slots, so a source object that a later chunk will copy keeps a pointer to freed memory.
  `Promote` says when: a promotion preserves the graph if and only if no live, unpinned object of a later chunk points
  to one that an earlier chunk moves. Marks, pins and chunk sizes decide that before the pass
  (`PlanPass(...).straight`). `PromoteExample` runs the pass on a two-page heap to its end: it reports success and
  leaves the field dangling. One chunk is always straight (`OneIsStraight`).
* **A cascade can panic on a forwarding marker, and exactly when.** The second pass of a cascading minor filters cards by
  the descriptors from before the first. A page that the first pass gave back and opened again still counts as G0 there,
  so the card scan walks it while its objects are being moved, and takes markers for headers. That alone does no harm:
  with the Lisp tags the marker of a target on a multiple of 32 reads as a Float whose one pointer cell is the next
  cell, which may be re-aimed, and whose length takes the walk off the card (`LispReads`). A marker of any other target
  reads as no header, and the code panics. `CollectMinor` says when a cascade ends so, from the heap before the call
  (`CascadeForetold`: a good heap without pins, `first.straight`, pages enough for the second plan): if and only if a
  dirty card, in the heap that `Foreseen` computes, leads the scan to an object which the second plan puts at such an
  address (`LispScan`).
  `StaleMinor` is a three-page heap on which it happens every time.
* **A heap of conses never runs out of memory inside a collection** if it has no pins and one Free page, whatever the
  number of chunks: a chunk is no longer than the number of Free pages and opens no more pages than it gives back.
* **Roots hold, pins or not.** No collection loses what a root reaches within a generation, or leaves a root behind, with
  any pins and any number of chunks (`CollectMinor`, `CollectMajor`, `CollectFull`, `RootLasts`); across generations that
  takes the cards. What is reached stays reached too, but for the source of a promotion that is not straight.
* **The write barrier suffices, pins or not.** At every moment of a run every cross-generation pointer lies on a dirty
  card, so a pass keeps what old objects point to (`Run`, `OldPointersKept`) and their fields follow (`OldFieldFollows`).
  Pages with gaps are the exception: there the card scan stops at the gap, and what it does not come to is not kept on
  its account.
* **Poison is for good.** After a collection that ran out of pages no command allocates or collects (`PoisonLasts`).
* **Pins hold, cascade included.** Over any run an object pinned more often than unpinned stays in place, also through a
  cascade in any number of chunks, and its fields follow their targets.
* **Run lengths wrap.** The span of a large run is stored in sixteen bits; `SpanWraps` says that exactly the runs below
  65536 pages are well-formed. No Lisp header describes a longer one (`LispRunsFit`), a Tiny header can.
* **A Float header looks like a forwarding marker.** `HeaderAliasIff` gives the reservations in which a header that the
  mutator can build reads as a marker into the heap: those that begin below 2^37, or 2^29 with no flag bits set.

Where the documentation and the code differ the model follows the code: `docs/gc-cycles.md` has
`collect_full` clear the pins after each pass, the code clears them once at the end; the
documentation describes a Cheney-style copy, the code marks first and copies marked objects by chunks; the comment on the
mutators' `collect_minor` has it poison the heap when it runs out of pages, the code does that in the `try_` forms only.

## Hypotheses

* Graph theorems about a pass: words lead to object starts of the matching kind or outside the reservation
  (`ClosedHeap`, `ValidField`), and every pointer into the source from outside it is visited by the card scan or
  held by a pinned object (`OutsideCovered`), which the dirty-card condition implies on gap-free pages.
* Graph theorems about a collection (`good`): in addition the heap has no pins and no gaps. That is needed, since a flipped
  page has gaps at which the card scan stops. Shapes, generations, pinned objects, the cards, and what the roots, the pins
  and the objects on pages without gaps reach are accounted for without it.
* Evacuation is modelled on heaps without Large pages; large runs have their own pass theorem, for source runs within
  one chunk.
* No header decodes as a marker into the reservation, and for the exact verdicts on card scans none reads as a pointer into
  it (`PlainHeaders`, which holds where the reservation lies above all addresses that headers can spell). Headers hold the
  allocated length before a collection begins.
* Committing memory succeeds.
* A pass starts without recycle counts, so it marks by itself.
* Steps of the protocol are sequentially consistent. A timeout is a spurious wakeup.

## Model

| member | source | states |
|---|---|---|
| Layouts.LispLawful | crates/newgc-core/src/lisp_layout.rs:36-92 | The 3-bit tag scheme obeys the laws the collector relies on: a forwarding marker classifies as forwarded to the address it was made from, re-aiming a pointer keeps tag and kind and is put-get, put-put and get-put, 0 is an immediate, a decodable header is at least one cell and its pointer range starts after it |
| Layouts.TinyLawful | crates/newgc-core/src/tiny_layout.rs:83-128 | The 2-bit tag scheme obeys the same laws |
| Layouts.LispFields | crates/newgc-core/src/lisp_layout.rs:110-124 | On raw header numbers, for every type code, every length and any flag bits: the header decodes exactly for the codes that exist, the object takes the header and the length in cells, and exactly which of its cells are words: all for a vector and the types laid out like it, the fields from the third or the first on or the name alone for the others, none for floats and strings |
| Layouts.TinyFields | crates/newgc-core/src/tiny_layout.rs:120-126 | Likewise of a Tiny header: every cell behind it is a word |
| Layouts.HeaderRoundTrip | crates/newgc-core/src/heap_common.rs:225-250 | Type and length read back what was packed, for every type and every length up to 2^24-1, with any GC flag bits set in between |
| Layouts.HeaderNeverForwardsIntoHeap | crates/newgc-core/src/page_heap/evac.rs:1514-1550 | A header the mutator can build never decodes as a forwarding marker into a reservation at or above 2^37 |
| Layouts.FloatHeaderAliasesForward | crates/newgc-core/src/heap_common.rs:225-250 | Of all headers the mutator can build exactly the Float ones, whatever their length and flags, classify as a forwarding marker, and at which address |
| Layouts.HeaderAliasIff | crates/newgc-core/src/page_heap/evac.rs:1514-1550 | Some header reads as a marker into a reservation at a given base if and only if the base lies below the last address headers can spell, 2^29 for each combination of flag bits |
| Layouts.MarkerAsHeader | crates/newgc-core/src/page_heap/evac.rs:576-601 | What a header decoder makes of a forwarding marker: a type it panics on, unless the target address is a multiple of 32; then a Float whose length comes out of the address |
| Bitmaps.StartTable.SetStart | crates/newgc-core/src/page_heap/alloc.rs:125-131 | The packed table as a map from cells to {none, header, cons}: recording a header start changes that cell and no other, and a cell that already is a cons start stays one |
| Bitmaps.StartTable.SetConsStart | crates/newgc-core/src/page_heap/alloc.rs:133-138 | Recording a cons start changes that cell and no other |
| Bitmaps.StartTable.IsStart | crates/newgc-core/src/page_heap/alloc.rs:140-145 | Reads the map |
| Bitmaps.StartTable.IsConsStart | crates/newgc-core/src/page_heap/alloc.rs:147-152 | Tells a cons start from a header start and from none |
| Bitmaps.StartTable.ClearPage | crates/newgc-core/src/page_heap/evac.rs:1568-1577 | Clears exactly the 8192 cells of the page |
| Bitmaps.MarkBitmap.MarkCell | crates/newgc-core/src/page_heap/space.rs:1276-1287 | Sets one mark and reports whether it was set before |
| Bitmaps.MarkBitmap.ClearPage | crates/newgc-core/src/page_heap/space.rs:1308-1316 | Clears exactly the marks of the page |
| Bitmaps.MarkBitmap.CountPage | crates/newgc-core/src/page_heap/coordinator_api.rs:352-377 | The sum of the popcounts of a page's mark words is the number of marked cells on the page, and fits sixteen bits |
| Bitmaps.WordCount | crates/newgc-core/src/page_heap/coordinator_api.rs:352-377 | The popcount of one mark word is the number of marked cells among its 64 |
| PageHeaps.PageHeap.constructor | crates/newgc-core/src/page_heap/space.rs:375-470 | A new heap meets the page-table invariant: nothing committed or allocated, every page Free and on the free list in order, no region open, all cards clean, counters zero |
| PageHeaps.PageHeap.PageOf | crates/newgc-core/src/page_heap/space.rs:956-966 | The page of an address, exactly for the addresses inside the reservation |
| PageHeaps.PageHeap.CommitPage | crates/newgc-core/src/page_heap/space.rs:1007-1066 | Reports fresh zero memory exactly when the page was not committed, and touches no other page |
| Pages.PinBits | crates/newgc-core/src/page_heap/page_desc.rs:265-285 | Setting a pin slot sets that slot, keeps the others, and makes the page pinned |
| Alloc.ReleasePageToFree | crates/newgc-core/src/page_heap/alloc.rs:166-178 | The page becomes Free and enters the free list, nothing else changes |
| Alloc.PopFree | crates/newgc-core/src/page_heap/alloc.rs:184-212 | Popping past stale entries finds a Free page or proves there is none, and keeps every other Free page on the list |
| Alloc.AcquireFreePage | crates/newgc-core/src/page_heap/alloc.rs:184-264 | Fails exactly when no page is Free; otherwise hands over a Free page that reads as zero and has no start bits, keeping the page-table invariant (free list covers Free pages, high-water prefix, zeroed pages are zero, regions in step) |
| Alloc.TryBumpInCurrent | crates/newgc-core/src/page_heap/alloc.rs:426-471 | Fails exactly when the region has no page with room; otherwise the object lies at the region's offset, on zero cells without starts, and only its first cell gains a start |
| Alloc.TryAllocInRegion | crates/newgc-core/src/page_heap/alloc.rs:383-424 | Refuses exactly when the heap is poisoned, or the open page lacks the room and the nursery is at its cap outside an evacuation of G0 or no page is Free; otherwise the object lies behind what the open page holds if it fits, and at the start of a Free page if not. The allocation counter goes up by its bytes, and a mutator's allocation takes the nursery no further than its cap |
| Alloc.RegionsKept | crates/newgc-core/src/page_heap/alloc.rs:426-471 | Two regions never share a page, so bumping one leaves the others in step with their pages |
| LargeRuns.OneHead | crates/newgc-core/src/page_heap/page_desc.rs:286-299 | Runs never overlap: a page has one head |
| LargeRuns.FindHead | crates/newgc-core/src/page_heap/evac.rs:360-371 | Walking back over continuation pages ends at the head of the run |
| LargeRuns.FindContiguousFreePages | crates/newgc-core/src/page_heap/alloc.rs:572-590 | Returns the lowest run of n Free pages, and None exactly when there is none |
| LargeRuns.TryAllocLarge | crates/newgc-core/src/page_heap/alloc.rs:485-568 | Fails exactly when poisoned, beyond the nursery cap, or no run is long enough; otherwise the lowest run becomes one zeroed object with a single start, head span n and n-1 continuation pages, every other page as before, the allocation counter up by its bytes, and the heap stays a heap of whole runs |
| LargeRuns.SpanWraps | crates/newgc-core/src/page_heap/alloc.rs:531-538 | The stamped run is well-formed if and only if its length is below 65536: the span is stored in sixteen bits |
| LargeRuns.LispRunsFit | crates/newgc-core/src/lisp_layout.rs:110-124 | A Lisp header, its length being 24 bits wide, never asks for more than 2048 pages; a Tiny header can ask for 65536 |
| LargeMarking.VisitSlot | crates/newgc-core/src/page_heap/evac.rs:335-416 | Offering a word: what it leads to is marked and queued unless it was marked before. A word that points anywhere into a run leads to its head, whatever its tag, and the first visit pins every page of the run and records the head as pinned |
| LargeMarking.ScanNode | crates/newgc-core/src/page_heap/evac.rs:427-464 | Scanning an object offers each of its fields, those of a Large object on all pages of its run; either nothing new is marked or the unmarked cells get fewer |
| LargeMarking.DrainAll | crates/newgc-core/src/page_heap/evac.rs:419-423 | The queue empties, and whatever is marked then has its children marked |
| LargeMarking.MarkedIsReached | crates/newgc-core/src/page_heap/evac.rs:335-464 | A drained mark that covers its seeds marks exactly what they reach through small and Large objects |
| LargeMarking.MarkMixed | crates/newgc-core/src/page_heap/evac.rs:702-716 | The internal mark on a heap with both kinds of objects: marked is exactly what the visited words reach, through the payload of runs as well, and exactly the runs reached are pinned whole and recorded at their heads |
| LargePasses.DecommitPage | crates/newgc-core/src/page_heap/space.rs:1074-1134 | Gives the page back and clears its cards and no others, if it was committed; else does nothing |
| LargePasses.ReclaimLargeChunk | crates/newgc-core/src/page_heap/evac.rs:1277-1318 | A pinned run flips whole without a cell changing, an unpinned run is freed whole, and the result is again a heap of whole runs |
| LargePasses.LargePass | crates/newgc-core/src/page_heap/evac.rs:684-881 | Mark and reclaim together: a run that some visited word reaches, through whatever small and Large objects, or that was pinned before, goes over whole and in place; every other run of the source is freed whole; no other page changes; exactly the heads of the runs reached join the pin set |
| Tlabs.CarveTlabInCurrent | crates/newgc-core/src/page_heap/alloc.rs:317-341 | The slab is the start of the open page's room, capped at what is left; None exactly without room |
| Tlabs.ReserveTlab | crates/newgc-core/src/page_heap/alloc.rs:275-315 | Refuses exactly as the central path does for the least that is wanted; otherwise the slab lies behind what the open page holds, with as much of the wanted cells as that has left, or at the start of a Free page with all of them |
| Tlabs.Mutators.Bump | crates/newgc-core/src/page_heap/mutator.rs:483-521 | Refuses exactly when the heap is poisoned, or the slab lacks the room and a new one is refused; takes a refill exactly if the slab lacks the room. The object is disjoint from every other object and slab, in the generation asked for, on zero cells, with exactly its first cell marked; slabs, refill and allocation counters afterwards are given |
| Tlabs.Mutators.Refill | crates/newgc-core/src/page_heap/mutator.rs:523-566 | Fails exactly when the carving does; else the one slab is the cells carved, the next refill asks for twice as many up to 8192, all others are untouched, and nobody's object moved |
| Tlabs.Mutators.Flush | crates/newgc-core/src/page_heap/mutator.rs:571-577 | The mutator's slabs go; objects and other mutators' slabs stay |
| Tlabs.Mutators.Register | crates/newgc-core/src/page_heap/mutator.rs:284-309 | A newcomer has empty slabs |
| Tlabs.Mutators.AllocCentral | crates/newgc-core/src/page_heap/alloc.rs:351-424 | Central allocations interleave freely with the slabs: all objects stay disjoint, with the exact condition for a refusal |
| Tlabs.BumpKeeps | crates/newgc-core/src/page_heap/mutator.rs:483-521 | The system invariant (objects and unused slabs pairwise disjoint, every start bit owned by one object) survives a bump |
| Tlabs.RefillKeeps | crates/newgc-core/src/page_heap/mutator.rs:523-566 | ... a refill, which abandons the tail of the old slab |
| Tlabs.ChargedKeeps | crates/newgc-core/src/page_heap/alloc.rs:317-341 | ... and a slab carved for another mutator |
| Tlabs.ReadyToAllocate | crates/newgc-core/src/page_heap/mutator.rs:571-577 | A collection leaves a heap on which allocation may go on |
| Marking.TryMarkRoot | crates/newgc-core/src/page_heap/mark.rs:192-251 | Marks and queues the target exactly if the word passes the gates: pointer, in the heap, target generation, a start, tag and start kind agreeing, not marked yet |
| Marking.PageMarkerDrain | crates/newgc-core/src/page_heap/mark.rs:90-95 | The queue empties, with measure (unmarked cells, queue length), and the marks grow only by reachable objects |
| Marking.MarkVisitSlot | crates/newgc-core/src/page_heap/evac.rs:335-416 | The evacuator's own gate makes the same decision on heaps without Large pages |
| Marking.MarkDrain | crates/newgc-core/src/page_heap/evac.rs:419-423 | The evacuator's own drain, under the same contract |
| Marking.MarkFromRoots | crates/newgc-core/src/page_heap/mark.rs:181-190 | The marked objects of the target generation are exactly those reachable from the roots through words that pass the gates, whatever was marked before |
| Marking.MarkExact | crates/newgc-core/src/page_heap/mark.rs:82-95 | A drained, sound pass that covers its seeds marks exactly the reachable objects |
| Marking.MarkersAgree | crates/newgc-core/src/page_heap/mark.rs:181-318 | The two implementations agree: from the same seeds they mark the same objects, in whatever order they visit |
| Marking.ClearMarkBitsInGen | crates/newgc-core/src/page_heap/space.rs:1289-1306 | Clears the marks of the pages of one generation and no others |
| Marking.LispEdges | crates/newgc-core/src/page_heap/evac.rs:427-464 | Whose pointers are followed: in the object graph of a Lisp heap a headed object has exactly the edges its word cells lead to |
| Marking.VectorElement | crates/newgc-core/src/page_heap/evac.rs:427-464 | So what an element of a reached vector points to is reached |
| EvacMarking.MarkDirtyCards | crates/newgc-core/src/page_heap/coordinator_api.rs:595-657 | In Mark mode the card scan offers exactly the cells the dirty cards lead to |
| EvacMarking.ApplyExplicitPins | crates/newgc-core/src/page_heap/pin.rs:380-398 | The explicit pins join the pin set, each with its page slot set; nothing but pin bytes changes |
| EvacMarking.ExtendMarkFromPinned | crates/newgc-core/src/page_heap/mark.rs:429-460 | Pinned objects of the source are marked and so is what they reach |
| EvacMarking.ExtendMarkFromCrossGenPinned | crates/newgc-core/src/page_heap/mark.rs:345-412 | What pinned objects of other generations point to is marked |
| EvacMarking.PrepareLiveCounts | crates/newgc-core/src/page_heap/coordinator_api.rs:352-377 | Each source page's live count is the number of its marked cells, every other count zero |
| EvacMarking.MarkForPass | crates/newgc-core/src/page_heap/evac.rs:702-732 | The mark of a pass is exact: marked is what the caller's roots, the scanned cards and the pins keep alive, no more and no less; and the live counts are those of the marks |
| Cards.CardVisitsPtrs | crates/newgc-core/src/page_heap/evac.rs:533-570 | On any page the scan of a card visits pointer cells of objects only: never a header, never an opaque payload cell |
| Cards.CardScanExact | crates/newgc-core/src/page_heap/evac.rs:533-570 | Exactly which pointer cells a card scan visits, on any page: those not cut off by an uncovered cell, where the walk stops |
| Cards.CardScanComplete | crates/newgc-core/src/page_heap/evac.rs:533-570 | On a gap-free page the scan visits every pointer cell of the card, also those of an object that starts in an earlier card |
| Cards.ObjectStartAtOrBefore | crates/newgc-core/src/page_heap/evac.rs:603-633 | Finds the nearest start at or below a cell on its page |
| Cards.ObjectPointerCells | crates/newgc-core/src/page_heap/evac.rs:576-601 | Size and pointer range of an object |
| Copying.CopyObject | crates/newgc-core/src/page_heap/evac.rs:945-1023 | Moves one object: block of the destination, word for word, marker left behind, cards of the block dirtied, nothing else touched; a failed allocation has one of the three reasons |
| Copying.IsPinnedCell | crates/newgc-core/src/page_heap/pin.rs:249-261 | The two-level pin index answers as the precise set does |
| Copying.CopyPage | crates/newgc-core/src/page_heap/evac.rs:908-1026 | The marked, unpinned objects of one page are copied, and no others |
| Copying.CopyChunk | crates/newgc-core/src/page_heap/evac.rs:890-1031 | Phase 1: exactly the marked unpinned objects of the chunk are copied, once each, to pairwise disjoint places, every other object is untouched; it opens as many fresh pages as next fit needs for the objects in their order, at most 2c for c source pages and at most c if they hold conses only, and runs out exactly if that many are not Free |
| Copying.CopiedForwards | crates/newgc-core/src/page_heap/evac.rs:1010-1023 | After Phase 1 the markers of the heap are exactly those of the copied objects |
| Copying.CopiedStep | crates/newgc-core/src/page_heap/evac.rs:985-1023 | One more object copied keeps the copy relation: injective, disjoint, payload kept, all others as they were |
| Demands.FitsBound | crates/newgc-core/src/page_heap/evac.rs:786-834 | Next fit: copying c pages' worth of cells opens at most 2c pages, at most c if all are conses |
| Demands.DemandStep | crates/newgc-core/src/page_heap/alloc.rs:383-471 | Each object goes where the packing says: behind what lies on the open page of its kind or, if that has no room, to the first cell of the page that the free list gives out next; the accounting survives it |
| Demands.ShelfPopped | crates/newgc-core/src/page_heap/alloc.rs:184-212 | The page popped is the one that the list, seen as an order on the Free pages, says is next, and the order of the others stays |
| Demands.ShelfReleased | crates/newgc-core/src/page_heap/alloc.rs:166-178 | Pages given back come to lie on top of that order, so they are the first to be opened again |
| Demands.ShelfCount | crates/newgc-core/src/page_heap/space.rs:375-470 | A list with every Free page on it, stale and repeated entries or not, gives out as many pages as there are Free ones |
| Demands.FreedCount | crates/newgc-core/src/page_heap/evac.rs:1396-1421 | Releasing the pages of a chunk makes as many more Free pages |
| Rewrite.MaybeRewrite | crates/newgc-core/src/page_heap/evac.rs:1234-1256 | A word is re-aimed exactly if it points to an object this phase has copied, keeping its tag |
| Rewrite.RewritePage | crates/newgc-core/src/page_heap/evac.rs:1161-1219 | Every pointer cell of every live object on the page is relocated, no other cell changes |
| Rewrite.RewritePinnedObject | crates/newgc-core/src/page_heap/evac.rs:1124-1157 | A pinned object's pointer cells are relocated in place |
| Rewrite.RewriteCards | crates/newgc-core/src/page_heap/coordinator_api.rs:595-657 | In Rewrite mode the card scan takes whatever stands at a header start for a header, markers included. It comes to its end exactly if every marker it comes to decodes and has it re-aim no cell that this would harm, and then it has relocated exactly the cells it visits |
| Rewrite.RewriteWalk | crates/newgc-core/src/page_heap/evac.rs:533-570 | The walk over one card: the same, object by object, stepping by the length read out of a marker where it comes to one |
| Rewrite.RewriteRoots | crates/newgc-core/src/page_heap/evac.rs:291-333 | Every root slot is relocated |
| Rewrite.Phase2Rewrite | crates/newgc-core/src/page_heap/evac.rs:1060-1119 | Phase 2: every root, visited card cell, destination payload cell and pinned payload cell holds the old word relocated with its tag kept, all other cells are identical; it comes to its end exactly if the card scan does |
| Reclaiming.ZeroOutsideRanges | crates/newgc-core/src/page_heap/evac.rs:1475-1505 | Zeroes exactly the cells of the page outside the given ranges |
| Reclaiming.FlipPage | crates/newgc-core/src/page_heap/evac.rs:1320-1395 | A page with pins goes over to the destination with its pinned objects, their starts and cards, and nothing else |
| Reclaiming.ReleasePage | crates/newgc-core/src/page_heap/evac.rs:1396-1421 | A page without pins is zero, without starts and Free |
| Reclaiming.ReclaimChunk | crates/newgc-core/src/page_heap/evac.rs:1262-1425 | Phase 3 computes the reclaimed view of the chunk, in order and number, counts a page as freed exactly if it carries no pin, and keeps the page-table invariant |
| Graphs.IsoCompose | crates/newgc-core/src/page_heap/cycle.rs:127-225 | Relocations that preserve the graph compose, so passes and cycles of passes do |
| Graphs.ClosedImage | crates/newgc-core/src/page_heap/evac.rs:684-881 | An isomorphic image of a closed object graph is closed |
| Chunks.ChunkIsoIff | crates/newgc-core/src/page_heap/evac.rs:890-1119 | A chunk preserves the graph of a closed live set if and only if every live pointer to an object it moves sits in a cell Phase 2 visits |
| Chunks.NoOthers | crates/newgc-core/src/page_heap/evac.rs:1262-1425 | After a chunk no object is left but the survivors at their places |
| Chunks.Survivor | crates/newgc-core/src/page_heap/evac.rs:890-1425 | Each survivor is at its place with its layout and all non-pointer cells |
| PassGraph.LiveClosed | crates/newgc-core/src/page_heap/evac.rs:702-732 | The objects a pass keeps point only at objects it keeps: the mark missed nothing, given that outside pointers are visited or pinned |
| PassGraph.GraphStep | crates/newgc-core/src/page_heap/evac.rs:786-834 | One chunk carries the isomorphism on: always within a generation, and when promoting as long as no object of a later chunk points back into this one |
| BackPointers.NotTouched | crates/newgc-core/src/page_heap/evac.rs:1068-1117 | Phase 2 does not come to a source object of a later chunk: neither the walk over the destination nor the pins nor a card scan that does not look at its page |
| BackPointers.DanglingBreaks | crates/newgc-core/src/page_heap/evac.rs:1068-1117 | A field still holding the old address of an object that has moved breaks the graph |
| Plans.OneIsStraight | crates/newgc-core/src/page_heap/evac.rs:786-809 | A pass that fits one chunk has no later chunk to point back from, and no page given back to open again |
| Plans.SinglesAfford | crates/newgc-core/src/page_heap/evac.rs:786-834 | A pass over pages with at most one object each never runs out, in however many chunks, if one page is Free |
| Plans.PlanSansPins | crates/newgc-core/src/page_heap/pin.rs:380-398 | The plan of a pass does not depend on whether the explicit pins have set their page bytes yet |
| Passes.EvacuateChunk | crates/newgc-core/src/page_heap/evac.rs:808-831 | Copy, rewrite and reclaim of one chunk together leave a well-formed heap and free or flip every page of the chunk; it runs out of pages exactly if the objects do not pack into the Free ones, and stops in its card scan exactly if that comes to a marker that it may not take for a header |
| PassSteps.CardedChunk | crates/newgc-core/src/page_heap/evac.rs:1012-1023 | A chunk dirties the cards under what came out of the source, and no others |
| Misreads.ChunkVerdict | crates/newgc-core/src/page_heap/coordinator_api.rs:595-657 | Whether the card scan of a chunk comes to its end is decided before the pass: by the cards that are dirty, the headers on the pages of the chunk, and where the plan puts their objects |
| Misreads.StopsAt | crates/newgc-core/src/page_heap/evac.rs:533-570 | The walk over a card stops if and only if it comes to a marker that may not be taken for a header |
| Misreads.LispReads | crates/newgc-core/src/page_heap/evac.rs:576-601 | With the Lisp tags a marker may be taken for a header if and only if the target address is a multiple of 32 and there is a cell behind it |
| Misreads.LispGarbled | crates/newgc-core/src/page_heap/evac.rs:533-601 | With the Lisp tags the scan of a card stops if and only if it comes to an object whose new address is no multiple of 32, or that is the last cell of the reservation |
| Misreads.LispScan | crates/newgc-core/src/page_heap/coordinator_api.rs:595-657 | So a whole card scan is stopped if and only if that happens on a dirty card it looks at |
| Following.FieldsStep | crates/newgc-core/src/page_heap/evac.rs:1068-1157 | One chunk on, in whatever state the heap is: a field has followed its target if that is kept, and holds the same word if it is not, for pinned objects, for objects in the destination, for those of the source as long as no pointer leads back into an earlier chunk, and for any other field that does not point into the source |
| Following.FollowStep | crates/newgc-core/src/page_heap/evac.rs:787-834 | One chunk on: fields and roots keep up with their targets; the graph is carried on if nothing points back; if something does, a field is left behind that no later chunk will mend |
| Evacuation.ChunkAsks | crates/newgc-core/src/page_heap/evac.rs:786-809 | A chunk has no more pages than there are Free ones, and if its objects are conses its copy asks for no more pages than it has |
| PassChunks.PassChunk | crates/newgc-core/src/page_heap/evac.rs:787-834 | One turn of the loop keeps everything the loop keeps, and the count of Free pages changes by exactly what next fit opens and what is given back |
| PassChunks.PackedPlaces | crates/newgc-core/src/page_heap/evac.rs:787-834 | Every object of the chunk that moves comes to lie where the plan of the pass has put it |
| Evacuation.ChunkLoop | crates/newgc-core/src/page_heap/evac.rs:786-834 | Every source page is dealt with, however many chunks it takes, and the loop runs out of pages exactly as planned from the heap before it |
| Evacuation.Evacuate | crates/newgc-core/src/page_heap/evac.rs:684-881 | One pass. What is left is exactly the objects outside the source and those of it that roots, scanned cards and pins keep alive, each at one image with shape and non-pointer cells kept, pinned ones in place with their fields following their targets. Whether it runs out of pages, and how many are Free afterwards, is read off the heap before it. Roots and fields follow the relocation for any number of chunks within a generation, and so does every cell of another generation that the card scan comes to, promotion or not; a promotion preserves the graph if and only if no unpinned live object of a later chunk points to one that an earlier chunk moves, for a source the card scan does not look at. A source of conses without pins and with a Free page never runs out of memory and ends with no fewer Free pages |
| Evacuation.EndPass | crates/newgc-core/src/page_heap/evac.rs:853-873 | The end of a pass clears marks and counts and nothing else |
| RootReach.PassKeepsReach | crates/newgc-core/src/page_heap/evac.rs:702-732 | Whatever of a generation the roots and the pins reach by pointers within it a pass keeps, with any pins, in any number of chunks, on any heap |
| RootReach.PassCarriesReach | crates/newgc-core/src/page_heap/evac.rs:1060-1157 | And they reach it still, in its new place, except in the source of a promotion that is not straight |
| RootReach.PassHoldsRoots | crates/newgc-core/src/page_heap/evac.rs:291-333 | Every root is aimed at what its target has become, and no root that points to an object loses it |
| OldFields.WatchedFollows | crates/newgc-core/src/page_heap/coordinator_api.rs:595-657 | Through a pass in any number of chunks, with any pins, on any heap: a pointer field of an object outside the source, on a page without gaps and on a dirty card if it points to another generation, follows what it points to |
| OldFields.WatchedNext | crates/newgc-core/src/page_heap/evac.rs:1012-1023 | Such fields are such fields after the pass too: their pages have no gaps and their cards are dirty where they have to be |
| OldFields.OldAsRoots | crates/newgc-core/src/page_heap/evac.rs:702-732 | Counting the words of such fields among the roots changes nothing in what the pass keeps, and they follow as roots do |
| Cycles.OldsOverPass | crates/newgc-core/src/page_heap/cycle.rs:127-225 | So over the passes of a collection: objects of generations not moved yet stay, and their fields are as good as roots |
| RootReach.ReachNext | crates/newgc-core/src/page_heap/cycle.rs:127-225 | What is kept and what is still reached, over one pass more: of its source only what was still reached |
| ChunkedPromotion.Promote | crates/newgc-core/src/page_heap/cycle.rs:139-172 | A whole promoting pass as the collections run it preserves the graph if and only if no live, unpinned object of a later chunk points to one that an earlier chunk moves, which marks, pins, descriptors and open regions decide before the pass; its card scan is never stopped |
| ChunkedPromotion.PromoteExample | crates/newgc-core/src/page_heap/evac.rs:1068-1117 | The promotion of the example heap run to its end: it reports success, the first cons has moved, the field of the second still holds its old address, and the graph is not preserved |
| ChunkedPromotion.TwoChunkInput | crates/newgc-core/src/page_heap/evac.rs:1068-1117 | A concrete heap on which it happens: well-formed, gap-free, two pages, and the second cons points to the first |
| ChunkedPromotion.TwoChunkPlan | crates/newgc-core/src/page_heap/evac.rs:786-809 | Its promotion takes two chunks, the Free pages suffice, and a pointer leads back |
| Remembered.CardsFind | crates/newgc-core/src/page_heap/coordinator_api.rs:595-657 | If every cross-generation pointer lies on a dirty card then the scan finds every pointer into the source from outside it |
| Remembered.CardKeeps | crates/newgc-core/src/page_heap/coordinator_api.rs:595-657 | What an object of another generation points to in the source is kept on account of the dirty card alone, if the page of the object has no gaps |
| Remembered.PassKeepsCover | crates/newgc-core/src/page_heap/evac.rs:1012-1023 | A pass keeps every cross-generation pointer on a dirty card |
| Remembered.RebuildCards | crates/newgc-core/src/page_heap/space.rs:895-944 | Walking only the pages below the high-water mark decides every card of the reservation: dirty exactly if its page is not Free and one of its cells classifies as a pointer. That cards above the mark are clean is part of the page-table invariant, which the allocation paths and every phase keep |
| Remembered.RebuiltCover | crates/newgc-core/src/page_heap/space.rs:895-944 | A rebuilt table covers every cross-generation pointer |
| Reachability.ReachableIso | crates/newgc-core/src/page_heap/cycle.rs:127-225 | The relocation maps what the roots reach before exactly onto what they reach after |
| Cycles.ClearAllPins | crates/newgc-core/src/page_heap/pin.rs:266-273 | Drops the pin set and every pin byte and nothing else |
| Cycles.CyclePass | crates/newgc-core/src/page_heap/cycle.rs:127-225 | One pass composed onto the passes before it |
| Cycles.StaleSees | crates/newgc-core/src/page_heap/cycle.rs:135-202 | The descriptors from before the first pass still admit every page outside G1 to the card scan of the cascade |
| Cycles.VictimsOnReused | crates/newgc-core/src/page_heap/cycle.rs:135-202 | They admit headed objects that the cascade is about to move only if the first pass took more than one chunk and opened a page it had given back again for headed objects |
| Likeness.KeepAlike | crates/newgc-core/src/page_heap/evac.rs:702-732 | Two heaps that agree in descriptors, starts, headers and where pointers lead keep the same objects in a pass |
| Likeness.PassAlike | crates/newgc-core/src/page_heap/evac.rs:786-834 | A pass over either has the same plan |
| Likeness.GarbledAlike | crates/newgc-core/src/page_heap/coordinator_api.rs:595-657 | Its card scan is stopped on both or on neither |
| Foresight.ImageAlike | crates/newgc-core/src/page_heap/evac.rs:684-881 | The heap a pass leaves is alike to the image of the heap before under the planned relocation |
| Foresight.ForeseenIsFound | crates/newgc-core/src/page_heap/cycle.rs:135-202 | The heap, cards, roots, open regions and free list between the two passes of a cascade are alike to what is computed from the heap before the first |
| Foresight.SecondForeseen | crates/newgc-core/src/page_heap/cycle.rs:176-202 | So are the plan of the second pass and whether its card scan comes through |
| Cycles.Foretelling | crates/newgc-core/src/page_heap/cycle.rs:135-202 | How a cascade ends is known before it begins, on a good heap without pins whose first pass is straight and affordable: with pages enough for the foreseen second plan it is stopped by its card scan exactly if a dirty card of the foreseen heap leads the scan to a marker it may not take for a header, and comes to its end otherwise; without, it runs out of pages or is stopped before that |
| Cycles.SecondStraight | crates/newgc-core/src/page_heap/cycle.rs:176-202 | The second pass preserves the graph if its pages, which are counted before the collection, fit one chunk |
| Cycles.CollectMinor | crates/newgc-core/src/page_heap/cycle.rs:127-225 | The whole minor collection with its cascade, with or without pins and for any number of chunks. Objects go where the counters say, pinned ones stay and their fields follow; the cards are true afterwards; a threshold minor leaves G0 without a page; every root is aimed at what its target has become, and what the roots and the pins reach within a generation is kept, and reached still, but where a promotion is not straight; generations that do not move stay, and fields of their objects on pages without gaps are as good as roots in all this. On a good heap without pins the graph from the roots is preserved whenever the promoting passes are straight: the first as read off the heap before, the second as read off the heap between, which it is wherever the pages left for it, counted on the heap before, fit one chunk. The cascade is stopped by its card scan exactly if, in the heap between the passes, a dirty card leads the scan to a marker it may not take for a header, which takes a page that the first pass gave back and opened again for headed objects; on such a good heap all of that is told from the heap before the call. A pin-free heap of conses with a Free page always comes to its end |
| Cycles.CollectMajor | crates/newgc-core/src/page_heap/cycle.rs:241-330 | G1 to Tenured, then G0 within itself: the same theorem, with one promoting pass, planned on the heap before; nothing that the roots, the pins and the Tenured objects on pages without gaps reach within a generation is lost, straight or not. It runs out of pages exactly if one of the two plans does, the second being that of the heap the first pass leaves; its card scan is never stopped |
| Cycles.CollectFull | crates/newgc-core/src/page_heap/cycle.rs:369-448 | Three passes: afterwards G0 and G1 have no pages, roots and pins hold what they reach as in the other two, and without pins everything left is reached from the explicit roots, on any heap, good or not: what cards kept alive in the first two passes does not survive the third. It runs out of pages exactly if one of the three plans does. Whether the promoting passes are straight is read off the heap before the first and, where the pages left for the second fit one chunk, for the second too |
| Cycles.FullExact | crates/newgc-core/src/page_heap/cycle.rs:415-448 | The last pass over a heap all in Tenured, without pins, leaves only what the roots reach, whatever else its words point to |
| Promotion.PlanCountsDown | crates/newgc-core/src/page_heap/cycle.rs:59-66 | The counters stay below 3 and 5, G0 is promoted at each third minor, and each minor brings the promotion to Tenured one nearer |
| Promotion.CountersBounded | crates/newgc-core/src/page_heap/cycle.rs:131-202 | Over any run of commands in which no collection runs out of pages the counters stay below 3 and 5, and each minor that brings the first to its threshold leaves G0 without a page |
| Promotion.NearerAlong | crates/newgc-core/src/page_heap/cycle.rs:131-202 | Along a run each minor brings a kept object one nearer to Tenured, until it is there, for good |
| Promotion.FifteenMinors | crates/newgc-core/src/page_heap/cycle.rs:131-202 | From any counters a collection leaves, an object kept alive through fifteen minors is in Tenured at the end, whatever mutators do between them |
| StaleCascade.StaleMinor | crates/newgc-core/src/page_heap/cycle.rs:135-202 | A three-page heap, good in every respect, on which the fifteenth minor always stops in the card scan of its second pass, at a marker that decodes as no header: the code panics |
| StaleCascade.NoHeader | crates/newgc-core/src/page_heap/evac.rs:576-601 | The marker it stops at decodes as no header |
| StaleCascade.InputGood | crates/newgc-core/src/page_heap/cycle.rs:135-202 | That heap: three strings with a root each, no pins, no gaps, no header that reads as a pointer |
| StaleCascade.InputIs | crates/newgc-core/src/page_heap/cycle.rs:135-202 | There is such a heap |
| StaleCascade.InputRooted | crates/newgc-core/src/lisp_layout.rs:36-92 | And such roots |
| StaleCascade.InputPlan | crates/newgc-core/src/page_heap/evac.rs:786-834 | Its first pass is straight and has pages enough; it puts the two short strings on the page of the long one |
| StaleCascade.InputGarbled | crates/newgc-core/src/page_heap/cycle.rs:176-202 | The second pass has pages enough too, and its card scan is led to the marker of the second short string |
| Pins.PinTargetCell | crates/newgc-core/src/page_heap/pin.rs:293-310 | Which words can be pinned: pointers into a page that is not Free, at an object start; neither the kind of the page nor the tag is compared with the start |
| Pins.Pin | crates/newgc-core/src/page_heap/pin.rs:318-326 | The count of the named cell goes up by one and no other |
| Pins.Unpin | crates/newgc-core/src/page_heap/pin.rs:332-343 | The count goes down by one, never below zero, and no entry stays at zero |
| Pins.PinConservatively | crates/newgc-core/src/page_heap/pin.rs:171-245 | Exactly the objects of the given generation that one of the words points to join the pin set, with their page slots; the pages that carry a pin byte are those that did and theirs, and nothing but pin bytes changes |
| Pins.PinAll | crates/newgc-core/src/page_heap/mutator.rs:940-958 | ... for each of the generations that the collection to come may move |
| Runs.NewSystem | crates/newgc-core/src/page_heap/space.rs:354-470 | A new heap with no mutators, whose nursery may have as many pages as asked for, but two at least and not more than there are, is where a run may begin |
| Runs.AddObject | crates/newgc-core/src/page_heap/mutator.rs:483-521 | Refused exactly when its slab, or the open page, lacks the room and no page is to be had, or the heap is poisoned, with nothing changed; otherwise there is one object more, in the generation asked for, of the size asked for, its header in place and zeros behind it, and every object that was there stays, word for word and in its generation, with every cross-generation pointer on a dirty card |
| Runs.NewCovers | crates/newgc-core/src/page_heap/alloc.rs:225-264 | A new object crosses no generations, and a page opened for it makes no pointer cross that did not: allocation keeps the remembered set |
| Runs.StoreCovers | crates/newgc-core/src/page_heap/space.rs:864-880 | The write barrier: with the card of the field marked, every cross-generation pointer is on a dirty card after the store if it was before |
| Runs.StoreField | crates/newgc-core/src/page_heap/mutator.rs:585-588 | A store into a pointer field and the card mark that goes with it change that one cell and that one card, and leave every cross-generation pointer on a dirty card |
| RunCollections.Collect | crates/newgc-core/src/page_heap/space.rs:789-858 | A collection of the whole system, slabs flushed and stacks pinned first. A poisoned heap is refused it, with nothing changed. Otherwise it completes if its passes have pages enough by their plans, and if one has not the heap is poisoned, or with a full collection the code panics, as it may at a marker in a cascade. Complete, it is a relocation that fixes what is pinned explicitly or from the stacks, with fields and roots following and what they reach kept, and true cards, after which all mutators may go on |
| RunCollections.EndsOnePass | crates/newgc-core/src/page_heap/space.rs:799-813 | A minor without cascade completes if and only if the plan of its pass, made from the heap before the call, has pages enough; if not it is reported and the heap is poisoned |
| RunCollections.SameFirst | crates/newgc-core/src/page_heap/pin.rs:171-245 | The pin bytes that the stack words have left do not change what the first pass keeps or its plan |
| SystemRuns.Mutate | crates/newgc-core/src/page_heap/mutator.rs:470-600 | Each mutator command is carried out exactly if it is allowed, with its effect on the heap, the slabs, the cards, the refcounts and the counters |
| SystemRuns.Execute | crates/newgc-core/src/page_heap/mutator.rs:780-989 | Each command, collections included, is a step of a run or is not carried out |
| SystemRuns.Run | crates/newgc-core/src/page_heap/mutator.rs:780-989 | Any sequence of commands run by the code of each is a run, step by step, up to the first that is not allowed or panics; every moment of it that is not poisoned is a well-formed heap with every cross-generation pointer on a dirty card |
| SystemRuns.PoisonLasts | crates/newgc-core/src/page_heap/space.rs:776-858 | After a collection that ran out of pages no command of the run adds an object or opens, fills or gives back a page, moves a root or collects: the heap is poisoned for good |
| SystemRuns.NurseryCapped | crates/newgc-core/src/page_heap/alloc.rs:401-406 | Along a run, as long as there is no collection, G0 grows no further than its cap |
| RootedRuns.RootLasts | crates/newgc-core/src/page_heap/cycle.rs:127-448 | The object that a root points to it points to at every later moment of a run, wherever that is by then, with its layout and every word that is no pointer, through any allocations, stores, pins and collections, as long as none has run out of pages |
| RootedRuns.OldPointersKept | crates/newgc-core/src/page_heap/mutator.rs:585-588 | At every moment of a run a pass keeps what an object of another generation, on a page without gaps, points to in its source: no store or allocation has escaped the remembered set |
| RootedRuns.OldFieldFollows | crates/newgc-core/src/page_heap/cycle.rs:127-448 | At every collection of a run, with whatever pins, an object of a generation that it does not move stays where it is, and if its page has no gaps each of its fields follows what it points to, which is kept |
| PinnedRuns.StackWordsHold | crates/newgc-core/src/page_heap/mutator.rs:940-958 | What a word of the stacks points to stays where it is through the collection, whatever generation it is in |
| PinnedRuns.PinsHold | crates/newgc-core/src/page_heap/pin.rs:318-413 | Over any run, with any number of mutators allocating, storing and collecting, an object held through every collection between two moments keeps its address, start, layout and non-pointer cells, as long as no collection has run out of pages |
| PinnedRuns.PinnedUntilUnpinned | crates/newgc-core/src/page_heap/pin.rs:318-343 | An object pinned more often than it is unpinned afterwards is so held, and is still pinned at the end |
| PinnedRuns.ChildrenFollow | crates/newgc-core/src/page_heap/mark.rs:345-460 | At every collection of a run the objects a held object points to are kept, and its fields point to where they went |
| SafepointProof.InvStep | crates/newgc-core/src/page_heap/mutator.rs:600-1009 | Every step of every mutator keeps the protocol invariant, dropping the handle from managed or from native code included |
| SafepointProof.RunKeeps | crates/newgc-core/src/page_heap/mutator.rs:600-1009 | The invariant holds in every state of every run, in every interleaving |
| SafepointProof.WorldIsStopped | crates/newgc-core/src/page_heap/mutator.rs:820-960 | While a driver is past its wait loop and has not resumed, every other active mutator is parked, in native code or blocked returning from it, or blocked as a later driver, and was on the driver's list: none joined meanwhile |
| SafepointProof.OneDriver | crates/newgc-core/src/page_heap/mutator.rs:820-960 | At most one driver has the world stopped |
| Handback.SnapshotCarried | crates/newgc-core/src/page_heap/mutator.rs:644-759 | In any run, from when a mutator leaves managed code holding roots until it is back, its snapshot is at every moment those roots with exactly the relocations of the collections since, in their order |
| Handback.RootsReturned | crates/newgc-core/src/page_heap/mutator.rs:688-692 | And those are the roots it holds when it is back, whether it polled, came back from native code or drove a collection itself |
| SafepointProof.NoLostWakeup | crates/newgc-core/src/page_heap/mutator.rs:657-686 | Whoever sleeps un-notified sleeps for a reason that still holds, or the notification is on its way, without help from the timeout |
| SafepointProof.NoFrozenStraggler | crates/newgc-core/src/page_heap/mutator.rs:861-928 | A mutator that a driver waits for is never itself asleep un-notified |
| Progress.AwaitedStops | crates/newgc-core/src/page_heap/mutator.rs:600-759 | From every reachable state a mutator that a driver awaits is no longer awaited after at most six steps of its own, which it can take as soon as the lock is free |
| Progress.StoppedReturns | crates/newgc-core/src/page_heap/mutator.rs:657-759 | With the world running a stopped mutator is back in managed code after at most seven steps of its own |
| Progress.DriverStops | crates/newgc-core/src/page_heap/mutator.rs:831-908 | A mutator that decides to collect has the world stopped after seven steps of its own, as soon as it can have both locks |
| Progress.DriverCompletes | crates/newgc-core/src/page_heap/mutator.rs:857-989 | A driver that has stopped the world and waits for nobody any more completes exactly one collection and is back in managed code, the world running, after a number of its own steps that is bounded by the number of slots |
| Progress.Arrives | crates/newgc-core/src/page_heap/mutator.rs:284-309 | With no driver about, a newcomer is registered and in managed code after four steps |
| Progress.EntersNative | crates/newgc-core/src/page_heap/mutator.rs:711-740 | A native call is entered after three steps whether the world runs or not, as soon as the lock is free |
| Handback.AnyRoots | crates/newgc-core/src/page_heap/mutator.rs:644-656 | What a mutator in managed code holds may be any words: the laws on snapshots are about all of them |
| Progress.LockFreed | crates/newgc-core/src/page_heap/mutator.rs:644-989 | Whoever holds the lock gives it back within a bounded number of steps of its own |

## Left out

- Operating-system memory calls and the backing of the reservation: only the commit bit and whether fresh memory is zero are modelled.
- Conservative stack scanning: the words of the stacks are given as a sequence; reading them off the machine stacks, and skipping targets inside the scanned window, are not modelled.
- `mark_minor_with_static`, `collect_minor_with_static` and the cards of static areas, including the pre-mark path that seeds the recycle counts and releases pages without live objects before a pass.
- Running on after a panic: the `collect_*` forms without a result that a client catches. In the runs minor and major are the `try_` forms and full has none, so running out of pages in a full collection ends the run, and a full collection of a poisoned heap, which the source does not guard, is not modelled.
- Pinning from stack words and collecting the garbage of a poisoned heap: the source lets a collection of one pin first and then refuses it; the model refuses it at once.
- `GcCoordinator::collect_*` called outside the protocol, panic and unwind machinery, statistics, stall reports, trigger heuristics.
- Unwinding after the panic at a marker that is no header; and what becomes of a heap once the scan has re-aimed a cell through a marker whose decoding names cells of other objects, which no Lisp marker does except in the last cell of the reservation.
- Weak memory orderings.
- The test driver crate.
- Cycles.CollectMinor: that a promotion which is not straight breaks the graph is stated for the pass (Evacuation.Evacuate), not for the collection it is part of; where the first pass is not straight, or there are pins, the verdict on the card scan of the cascade is stated on the heap between the passes.
- Cycles.CollectFull: with pins, what pinned objects keep alive is left as well, and exactness is not stated.
- Cycles.CollectMajor: that a promotion which is not straight breaks the graph is stated for the pass, not for the collection.
- Evacuation.Evacuate: on heaps with pins the graph theorem asks that the visited slots cover the pointers into the source, since a flipped page has gaps at which the object-aware card scan stops; a promotion that is not straight is shown to break the graph when the card scan looks at no source page, as with descriptors from before the pass.
- LargePasses.LargePass: the words that the caller's closure visits are a parameter, as they are of the source's function; rewriting the payload of a run that stays, and small objects moving in the same pass, are not modelled together with it. Explicitly pinned large objects are not followed by the internal mark.
- LargeRuns.TryAllocLarge: the run structure afterwards is claimed for runs below 65536 pages, which is exactly when it holds.
- PinnedRuns.PinsHold: large objects do not occur in these runs; between two commands every object has its header.
- RunCollections.Collect: a major collection has no driver in the source; it is run here as the other two are, pinning in G0 and G1.
- Handback.SnapshotCarried: roots are abstract words and a collection is an arbitrary relocation of words; that the relocation is the one the collector computes is the subject of the collection theorems.
- RootedRuns.OldPointersKept: asks for a page without gaps, since the object-aware card scan stops at a gap and misses what lies behind it.
- RootedRuns.OldFieldFollows: asks for a page without gaps, for the same reason.
- Tlabs.Mutators.Bump: each call is one atomic step, taken in any order with the steps of others; the lock-free reads inside it are not split further.
