/** Chunk after chunk: what an evacuation pass keeps. */
module Passes {
  import opened Bits
  import opened Options
  import opened Bitmaps
  import opened Layouts
  import opened Pages
  import opened Objects
  import opened PageHeaps
  import opened Marking
  import opened Cards
  import opened Moves
  import opened Rewrite
  import opened Demands
  import opened Copying
  import opened Reclaiming
  import opened EvacMarking
  import opened Graphs
  import opened Chunks

  // -- Well-formedness through a chunk --------------------------------------

  /** The heap is well-formed again once the forwarded objects are reclaimed. */
  lemma ChunkHeapOk(g: Geometry, v0: View, v1: View, v2: View, v3: View, f: map<nat, nat>, touched: set<nat>,
                    chunk: set<nat>, pins: set<nat>, dest: Generation)
    requires GeoOk(g) && ChunkStep(g, v0, v1, v2, v3, f, touched, chunk, pins, dest)
    ensures HeapOk(g, v3)
  {
    hide ObjOk, ReclaimedView, Copied, Rewrote, FwdMap, HeapOk, PinsOk, PinsSolid, OnlyRewritable, SameShape, Reloc,
      InPinned;
    ChunkShapes(g, v0, v1, v2, v3, f, touched, chunk, pins, dest);
    RewroteOk(g, f, v1, v2, touched);
    forall x: nat | x < |v3.starts| && IsObj(v3, x) ensures ObjOk(g, v3, x) {
      StayedUnforwarded(g, v0, v1, v2, v3, f, touched, chunk, pins, dest, x);
      StayedOk(g, v2, chunk, pins, dest, x);
    }
    assert HeapOk(g, v3) by { AllOkIsHeapOk(g, v3); }
  }

  lemma AllOkIsHeapOk(g: Geometry, v: View)
    requires Shaped(g, v) && forall x: nat | x < |v.starts| && IsObj(v, x) :: ObjOk(g, v, x)
    ensures HeapOk(g, v)
  {
    hide ObjOk;
  }

  lemma StayedUnforwarded(g: Geometry, v0: View, v1: View, v2: View, v3: View, f: map<nat, nat>, touched: set<nat>,
                          chunk: set<nat>, pins: set<nat>, dest: Generation, x: nat)
    requires GeoOk(g) && ChunkStep(g, v0, v1, v2, v3, f, touched, chunk, pins, dest) && IsObj(v3, x)
    ensures Shaped(g, v1) && Shaped(g, v2) && IsObj(v2, x) && !IsMarker(g, v2.cells[x])
    ensures x / PAGE_CELLS !in chunk || x in pins
  {
    hide ObjOk, Reloc, InPinned, Copied, HeapOk, PinsSolid, PinsOk;
    assert x / PAGE_CELLS !in chunk || x in pins;
    assert IsObj(v2, x) && IsObj(v1, x);
    assert x !in f;
    RewroteLayout(g, f, v1, v2, touched, x);
  }

  /** What is kept of a well-formed heap is well-formed. */
  lemma StayedOk(g: Geometry, v: View, chunk: set<nat>, pins: set<nat>, dest: Generation, x: nat)
    requires PartOk(g, v) && PinsOk(v, pins) && PinsSolid(g, v, pins) && dest != Free
    requires IsObj(v, x) && !IsMarker(g, v.cells[x]) && (x / PAGE_CELLS !in chunk || x in pins)
    ensures Shaped(g, ReclaimedView(g, v, chunk, pins, dest)) && ObjOk(g, ReclaimedView(g, v, chunk, pins, dest), x)
  {
    hide Owner;
    var w := ReclaimedView(g, v, chunk, pins, dest);
    assert ObjOk(g, v, x);
    if x in pins {
      PinStays(g, v, chunk, pins, dest, x);
    } else {
      assert w.cells[x] == v.cells[x] && w.starts[x] == v.starts[x];
    }
  }

  // -- Between the phases ---------------------------------------------------

  /** The snapshot keeps the card scan off page `p`. */
  predicate Hidden(snapshot: seq<PageDesc>, from: Generation, p: nat) {
    p < |snapshot| && (snapshot[p].generation == Free || snapshot[p].generation == from)
  }

  /** Whatever of `move` lies on page `p` is a cons. */
  ghost predicate ConsesMove(v: View, move: set<nat>, p: nat) {
    forall s | s in move && s / PAGE_CELLS == p :: s < |v.starts| && v.starts[s] == ConsStart
  }

  /** On no page of the chunk that the snapshot lets the card scan see will a header be
      overwritten by a marker. */
  ghost predicate ScanSkips(scan: Option<seq<PageDesc>>, v: View, move: set<nat>, from: Generation, chunk: seq<nat>) {
    scan.Some? ==> forall i | 0 <= i < |chunk| :: Hidden(scan.value, from, chunk[i]) || ConsesMove(v, move, chunk[i])
  }

  /** Phase 1 leaves the heap ready for Phase 2. */
  lemma AfterCopy(g: Geometry, v0: View, cards0: seq<bool>, v1: View, cards1: seq<bool>, f: map<nat, nat>,
                  dest: Generation, closed: set<nat>, marks: seq<bool>, pins: set<nat>, from: Generation,
                  chunk: seq<nat>)
    requires GeoOk(g) && CopySoFar(g, v0, cards0, v1, cards1, f, dest, closed) && NoLarge(v0)
    requires f.Keys == MovableIn(v0, marks, pins, from, chunk) && PinsOk(v0, pins)
    ensures FwdMap(g, v1, f) && PartOk(g, v1) && NoLarge(v1)
    ensures PinsOk(v1, pins) && forall s | s in pins :: s !in f && !IsMarker(g, v1.cells[s])
  {
    hide ObjOk, CopyAt, PartOk, CopiesCarded;
    CopiedForwards(g, v0, v1, f, dest);
    SlotsKept(v0, v1.descs, pins, dest);
    forall s | s in f ensures s !in pins {
      assert s in f.Keys && MovableFrom(v0, marks, pins, from, chunk, s);
    }
    forall s | s in pins ensures IsObj(v1, s) && s !in f && !IsMarker(g, v1.cells[s]) {
      assert IsObj(v0, s) && s !in f && Kept(g, v0, v1, s);
      KeptSame(g, v0, v1, s);
    }
  }

  /** No header on page `p` is overwritten by a marker. */
  ghost predicate HeadersIntact(g: Geometry, v: View, p: nat)
    requires |v.starts| == |v.cells|
  {
    forall s: nat | s < |v.starts| && s / PAGE_CELLS == p && IsObj(v, s) && v.starts[s] == HeaderStart ::
        !IsMarker(g, v.cells[s])
  }

  lemma {:induction false} IntactLegible(g: Geometry, v: View, p: nat, s: nat, end: nat)
    requires PartOk(g, v) && HeadersIntact(g, v, p) && end <= |v.starts| && end <= PAGE_CELLS * (p + 1)
    requires s < end ==> s / PAGE_CELLS == p && GenAt(v, s) != Free
    ensures WalkLegible(g, v, s, end)
    decreases end - s
  {
    if s < end && v.starts[s] != NoStart {
      assert IsObj(v, s) && Whole(g, v, s);
      IntactLegible(g, v, p, s + SizeOf(g, v, s), end);
    }
  }

  /** On a page the scan sees only conses are forwarded. */
  lemma SeenForwarded(g: Geometry, v0: View, v1: View, f: map<nat, nat>, dest: Generation, marks: seq<bool>,
                      pins: set<nat>, from: Generation, chunk: seq<nat>, snapshot: seq<PageDesc>, s: nat)
    requires GeoOk(g) && Copied(g, v0, v1, f, dest) && s in f && f.Keys == MovableIn(v0, marks, pins, from, chunk)
    requires ScanSkips(Some(snapshot), v0, MoveSet(v0, marks, pins), from, chunk)
    requires !Hidden(snapshot, from, s / PAGE_CELLS)
    ensures s < |v1.starts| && v1.starts[s] == ConsStart
  {
    hide CopyAt, Kept;
    assert s in f.Keys && MovableFrom(v0, marks, pins, from, chunk, s) && s in MoveSet(v0, marks, pins);
    CopiedStart(g, v0, v1, f, dest, s);
  }

  /** A scan that sees no page on which headers were overwritten reads no marker. */
  lemma SkipsLegible(g: Geometry, v0: View, v1: View, cards: seq<bool>, f: map<nat, nat>, dest: Generation,
                     marks: seq<bool>, pins: set<nat>, from: Generation, chunk: seq<nat>, scan: Option<seq<PageDesc>>)
    requires GeoOk(g) && Copied(g, v0, v1, f, dest) && FwdMap(g, v1, f) && PartOk(g, v1)
    requires f.Keys == MovableIn(v0, marks, pins, from, chunk)
    requires ScanSkips(scan, v0, MoveSet(v0, marks, pins), from, chunk)
    ensures ScanLegible(g, v1, cards, scan, from)
  {
    hide Copied, PartOk, ScanSkips;
    if scan.None? { return; }
    PartShaped(g, v1);
    forall k: nat | k < CARDS_PER_PAGE * g.nPages && CardScanned(cards, scan.value, from, k)
      ensures CardLegible(g, v1, k) {
      CardOnPage(k);
      var p := k / CARDS_PER_PAGE;
      forall s: nat | s < |v1.starts| && s / PAGE_CELLS == p && IsObj(v1, s) && v1.starts[s] == HeaderStart
        ensures !IsMarker(g, v1.cells[s])
      {
        if s in f { SeenForwarded(g, v0, v1, f, dest, marks, pins, from, chunk, scan.value, s); }
      }
      if GenAt(v1, CARD_CELLS * k) != Free {
        IntactLegible(g, v1, p, WalkStart(v1.starts, CARD_CELLS * k, CARD_CELLS * (k + 1)), CARD_CELLS * (k + 1));
      }
    }
  }

  lemma PartShaped(g: Geometry, v: View)
    requires PartOk(g, v)
    ensures Shaped(g, v)
  {
  }

  lemma WholeAt(g: Geometry, v: View, s: nat)
    requires HeapOk(g, v) && IsObj(v, s)
    ensures Shaped(g, v) && Whole(g, v, s) && s % PAGE_CELLS < v.descs[s / PAGE_CELLS].wordsUsed
  {
    assert ObjOk(g, v, s);
  }

  /** On a sealed page the start table stays as it is. */
  lemma SealedStart(g: Geometry, v0: View, cards0: seq<bool>, v1: View, cards1: seq<bool>, f: map<nat, nat>,
                    dest: Generation, closed: set<nat>, c: nat)
    requires GeoOk(g) && CopySoFar(g, v0, cards0, v1, cards1, f, dest, closed) && Shaped(g, v0) && Shaped(g, v1)
    requires c < |v0.starts| && c / PAGE_CELLS in closed && GenAt(v0, c) != Free
    ensures v1.starts[c] == v0.starts[c] && v1.descs[c / PAGE_CELLS] == v0.descs[c / PAGE_CELLS]
  {
    hide CopyAt, HeapOk, PartOk, CopiesCarded, DescsGrown, TiledKept;
    if c in f {
      assert v1.starts[c] == v0.starts[c];
    } else if v0.starts[c] != NoStart {
      assert Kept(g, v0, v1, c);
    } else {
      hide Kept;
      forall s | s in f ensures f[s] != c {
        assert f[s] / PAGE_CELLS !in closed;
      }
      assert !IsObj(v1, c);
    }
  }

  lemma CopiedStart(g: Geometry, v0: View, v1: View, f: map<nat, nat>, dest: Generation, s: nat)
    requires GeoOk(g) && Copied(g, v0, v1, f, dest) && s in f
    ensures s < |v0.starts| && s < |v1.starts| && v1.starts[s] == v0.starts[s]
  {
    assert CopyAt(g, v0, v1, s, f[s], dest);
  }

  /** Phase 2 leaves cells that are not in use zero. */
  lemma RewroteMemory(g: Geometry, v1: View, v2: View, f: map<nat, nat>, touched: set<nat>, committed: seq<bool>)
    requires GeoOk(g) && InRange(g, f) && Rewrote(g, f, v1, v2, touched) && MemoryOk(v1, committed)
    ensures MemoryOk(v2, committed)
  {
    hide Reloc;
    ZeroStays(g, f);
    forall x | 0 <= x < |v2.cells| ensures CellZeroIfUnused(v2, committed, x) {
      assert CellZeroIfUnused(v1, committed, x);
    }
    forall c | 0 <= c < |v2.starts| && IsObj(v2, c)
      ensures c % PAGE_CELLS < v2.descs[c / PAGE_CELLS].wordsUsed
              && (v2.descs[c / PAGE_CELLS].kind == Cons ==> v2.starts[c] == ConsStart)
    {
      assert IsObj(v1, c);
    }
  }

  lemma ZeroStays(g: Geometry, f: map<nat, nat>)
    requires GeoOk(g) && InRange(g, f)
    ensures Reloc(g, f, 0) == 0
  {
  }

  lemma RewrotePins(g: Geometry, v1: View, v2: View, f: map<nat, nat>, touched: set<nat>, pins: set<nat>,
                    pinned: seq<(nat, bool)>)
    requires GeoOk(g) && PartOk(g, v1) && FwdMap(g, v1, f) && OnlyRewritable(g, v1, touched)
    requires Rewrote(g, f, v1, v2, touched)
    requires PinsOk(v1, pins) && (forall s | s in pins :: s < |v1.cells| && !IsMarker(g, v1.cells[s]))
    requires SnapshotOf(v1, pins, pinned)
    ensures ReclaimReady(g, v2, pins, pinned)
  {
    hide Reloc, OnlyRewritable, ObjOk, Bit;
    RewroteOk(g, f, v1, v2, touched);
    forall s | s in pins ensures IsObj(v2, s) && ObjOk(g, v2, s) && v2.descs[s / PAGE_CELLS].IsPinned(PinSlot(s)) {
      assert IsObj(v1, s);
      RewroteLayout(g, f, v1, v2, touched, s);
    }
  }

  lemma CopiedSnapshot(g: Geometry, v0: View, v1: View, f: map<nat, nat>, dest: Generation, pins: set<nat>,
                       pinned: seq<(nat, bool)>)
    requires GeoOk(g) && Copied(g, v0, v1, f, dest) && SnapshotOf(v0, pins, pinned) && forall s | s in pins :: s !in f
    ensures SnapshotOf(v1, pins, pinned)
  {
    hide CopyAt;
    forall j | 0 <= j < |pinned|
      ensures pinned[j].0 in pins && IsObj(v1, pinned[j].0) && pinned[j].1 == (v1.starts[pinned[j].0] == ConsStart)
    {
      assert Kept(g, v0, v1, pinned[j].0);
    }
  }

  lemma SmallPages(v: View, committed: seq<bool>, freeList: seq<nat>, highWater: nat)
    requires MemoryOk(v, committed) && PagesOk(v.descs, committed, freeList, highWater)
    ensures KindsOk(v.descs) && ConsPagesOk(v) && PagesTidy(v)
    ensures forall p | 0 <= p < |v.descs| :: v.descs[p].wordsUsed <= PAGE_CELLS
  {
  }

  /** How a chunk, or a pass, ends: to the end; for want of a page to copy to; or because the card
      scan comes to a marker that it may not take for a header. */
  datatype Outcome = Done | Exhausted | Misread

  /** What one chunk did, phase by phase. */
  datatype ChunkTrace = ChunkTrace(f: map<nat, nat>, v1: View, v2: View, cards1: seq<bool>)

  /** The caller's root array is no part of the heap's own memory. */
  predicate RootsApart(h: PageHeap, roots: array<u64>) {
    roots != h.cells && roots != h.startTable.bits && roots != h.markTable.bits
  }

  /** What Phase 1 of a chunk that found pages enough leaves. */
  ghost predicate PhaseOne(h: PageHeap, from: Generation, dest: Generation, chunk: seq<nat>, v0: View,
                           cards0: seq<bool>, closed: set<nat>, t: ChunkTrace)
    reads h, h.markTable.bits
  {
    && GeoOk(h.Geo()) && Shaped(h.Geo(), v0) && Shaped(h.Geo(), t.v1)
    && CopySoFar(h.Geo(), v0, cards0, t.v1, t.cards1, t.f, dest, closed) && FwdMap(h.Geo(), t.v1, t.f)
    && t.f.Keys == MovableIn(v0, h.markTable.Map(), h.pinnedCells, from, chunk)
  }

  ghost predicate ChunkDone(h: PageHeap, from: Generation, dest: Generation, chunk: seq<nat>,
                            scan: Option<seq<PageDesc>>, v0: View, cards0: seq<bool>, roots0: seq<u64>,
                            roots: seq<u64>, closed: set<nat>, t: ChunkTrace)
    reads h, h.cells, h.startTable.bits, h.cards, h.markTable.bits
  {
    && h.Valid() && Shaped(h.Geo(), v0) && Shaped(h.Geo(), t.v1)
    && CopySoFar(h.Geo(), v0, cards0, t.v1, t.cards1, t.f, dest, closed)
    && t.f.Keys == MovableIn(v0, h.markTable.Map(), h.pinnedCells, from, chunk)
    && ChunkStep(h.Geo(), v0, t.v1, t.v2, h.V(), t.f,
                 Phase2Cells(h.Geo(), t.v1, t.cards1, scan, from, dest, h.pinnedCells), Before(chunk, |chunk|),
                     h.pinnedCells, dest)
    && InRange(h.Geo(), t.f) && RootsMoved(h.Geo(), t.f, roots0, roots)
    && |t.v2.starts| == |t.v2.cells|
    && PinsCarded(h.Geo(), t.v2, h.pinnedCells, Before(chunk, |chunk|), t.cards1, h.cards[..])
  }

  /** Copy, rewrite and reclaim one chunk of source pages. */
  method EvacuateChunk(h: PageHeap, from: Generation, dest: Generation, chunk: seq<nat>, roots: array<u64>,
                       scan: Option<seq<PageDesc>>, pinned: seq<(nat, bool)>, ghost d0: Demand,
                       ghost closed: set<nat>)
    returns (outcome: Outcome, freed: nat, flipped: nat, ghost t: ChunkTrace, ghost d: Demand)
    requires h.Inv() && HeapOk(h.Geo(), h.V()) && NoLarge(h.V()) && HasRegion(dest, Cons) && RootsApart(h, roots)
    requires PinsOk(h.V(), h.pinnedCells) && SnapshotOf(h.V(), h.pinnedCells, pinned)
    requires Sealed(h.descs, h.regions, closed)
    requires (forall i | 0 <= i < |chunk| :: chunk[i] in closed)
    requires (forall i, j | 0 <= i < j < |chunk| :: chunk[i] != chunk[j])
    requires scan.Some? ==> |scan.value| == h.nPages
    requires DemandSoFar(h.descs, h.V(), h.regions, h.freeList, dest, d0) && Fresh(d0)
    modifies h`descs, h`regions, h`bytesAlloc, h`committed, h`freeList, h`highWater, h.cells, h.startTable.bits,
      h.cards, roots
    ensures h.Valid()
    ensures outcome.Done? ==> h.Inv() && Sealed(h.descs, h.regions, closed - Members(Unpinned(old(h.descs), chunk)))
    ensures outcome.Done? ==>
              ChunkDone(h, from, dest, chunk, scan, old(h.V()), old(h.cards[..]), old(roots[..]), roots[..], closed, t)
    ensures outcome.Done? ==> freed == |Unpinned(old(h.descs), chunk)| && freed + flipped == |chunk|
    ensures outcome.Done? ==> NoLarge(h.V()) && ReclaimReady(h.Geo(), h.V(), h.pinnedCells, pinned) && PagesTidy(t.v1)
    ensures d == PackChunk(h.Geo(), old(h.V()), MoveSet(old(h.V()), h.markTable.Map(), h.pinnedCells), from, chunk,
        |chunk|, d0)
    ensures outcome.Done? ==>
              DemandSoFar(h.descs, h.V(), h.regions, h.freeList, dest, d.Next(Unpinned(old(h.descs), chunk)))
    ensures outcome.Done? ==>
              CountGen(h.descs, Free) == CountGen(old(h.descs), Free) - d.Pages() + |Unpinned(old(h.descs), chunk)|
    ensures !outcome.Exhausted? ==>
              d.Pages() <= PagesAsked(old(h.V()), chunk) && d.Pages() <= CountGen(old(h.descs), Free)
    ensures outcome.Exhausted? ==> Blocked(h, dest) || (d.Pages() > CountGen(old(h.descs), Free)
                                                        && CountGen(old(h.descs), Free) < PagesAsked(old(h.V()), chunk))
    ensures !outcome.Exhausted? ==> Put(t.f, d)
    ensures !outcome.Exhausted? ==> PhaseOne(h, from, dest, chunk, old(h.V()), old(h.cards[..]), closed, t)
                                    && (outcome.Done? <==> ScanLegible(h.Geo(), t.v1, t.cards1, scan, from))
  {
    hide Starts, GeoOk, Lawful, MemoryOk, PagesOk, RegionsOk, HeapOk, PartOk, Copied, Sealed, PinsOk, SnapshotOf,
      NoLarge, KindsOk, ConsPagesOk, CopySoFar, MovableIn, Marks, FwdMap, Rewrote, OnlyRewritable, ReclaimReady,
      ScanLegible, Phase2Cells, PinsCarded, ReclaimedView, CopiesCarded, DescsGrown, RootsMoved, ChunkStep, WellPaired,
      Before, ObjOk, PagesTidy, CountGen, PagesAsked, Blocked, DemandSoFar, PackChunk, MoveSet, CardsClean, Shelf,
      Unpinned, Put;
    ghost var g, v0, cards0 := h.Geo(), h.V(), h.cards[..];
    outcome, freed, flipped := Done, 0, 0;
    ghost var f;
    var ok;
    ok, f, d := CopyChunk(h, from, dest, chunk, d0, closed);
    t := ChunkTrace(f, h.V(), h.V(), h.cards[..]);
    if !ok {
      outcome := Exhausted;
      return;
    }
    ghost var v1, cards1 := h.V(), h.cards[..];
    AfterCopy(g, v0, cards0, v1, cards1, f, dest, closed, h.markTable.Map(), h.pinnedCells, from, chunk);
    SmallPages(v1, h.committed, h.freeList, h.highWater);
    PinnedObjects(v1, h.pinnedCells);
    DemandCount(v0.descs, v1, h.regions, h.freeList, dest, d);
    SoFarParts(g, v0, cards0, v1, cards1, f, dest, closed);
    var legible := Phase2Rewrite(h, from, dest, roots, scan, f);
    ghost var v2, touched := h.V(), Phase2Cells(g, v1, cards1, scan, from, dest, h.pinnedCells);
    t := ChunkTrace(f, v1, v2, cards1);
    if !legible {
      outcome := Misread;
      return;
    }
    FwdRange(g, v1, f);
    RewroteMemory(g, v1, v2, f, touched, h.committed);
    CopiedSnapshot(g, v0, v1, f, dest, h.pinnedCells, pinned);
    PinsUnforwarded(v1, h.pinnedCells);
    RewrotePins(g, v1, v2, f, touched, h.pinnedCells, pinned);
    RewroteTables(g, f, v1, v2, touched);
    ghost var free1 := h.freeList;
    ClosedDescs(g, v0, cards0, v1, cards1, f, dest, closed);
    freed, flipped := ReclaimChunk(h, dest, chunk, pinned, closed);
    SealedPages(v0.descs, old(h.regions), closed);
    UnpinnedSame(v0.descs, v2.descs, chunk);
    ReclaimedCounts(g, v0.descs, v2, chunk, h.pinnedCells, dest, closed);
    DemandAfter(g, v0.descs, v1, v2, h.regions, free1, chunk, h.pinnedCells, dest, closed, d);
    StepOf(g, v0, cards0, v1, cards1, v2, f, touched, chunk, h.markTable.Map(), h.pinnedCells, pinned, from, dest,
      closed);
    StillReady(g, v2, Before(chunk, |chunk|), h.pinnedCells, pinned, dest);
    NoLargeKept(g, v2, Before(chunk, |chunk|), h.pinnedCells, dest);
  }

  lemma ClosedDescs(g: Geometry, v0: View, cards0: seq<bool>, v1: View, cards1: seq<bool>, f: map<nat, nat>,
                    dest: Generation, closed: set<nat>)
    requires GeoOk(g) && CopySoFar(g, v0, cards0, v1, cards1, f, dest, closed)
    ensures |v1.descs| == |v0.descs| && forall p | p in closed && p < |v0.descs| :: v1.descs[p] == v0.descs[p]
  {
    hide CopyAt, Kept, HeapOk, PartOk, CopiesCarded, TiledKept;
  }

  lemma SealedPages(descs: seq<PageDesc>, regions: seq<AllocRegion>, closed: set<nat>)
    requires |regions| == 6 && Sealed(descs, regions, closed)
    ensures forall p | p in closed :: p < |descs| && descs[p].generation != Free
  {
  }

  /** What the reclaim does to the pages of the chunk and to the others. */
  lemma ReclaimedPage(g: Geometry, v: View, chunk: seq<nat>, pins: set<nat>, dest: Generation, p: nat)
    requires |v.starts| == |v.cells| && p < |v.descs|
    ensures var w := ReclaimedView(g, v, Before(chunk, |chunk|), pins, dest);
      && |w.descs| == |v.descs|
      && w.descs[p] == if p !in chunk || v.descs[p].generation == Free then v.descs[p]
                       else if v.descs[p].HasPins() then v.descs[p].(generation := dest) else FREE_DESC.(zeroed := true)
  {
    hide InPinned;
    assert chunk[..|chunk|] == chunk;
  }

  /** The pages without pins come back Free. */
  lemma ReclaimedCounts(g: Geometry, descs0: seq<PageDesc>, v2: View, chunk: seq<nat>, pins: set<nat>, dest: Generation,
                        closed: set<nat>)
    requires |v2.starts| == |v2.cells| && dest != Free && |descs0| == |v2.descs|
    requires (forall i | 0 <= i < |chunk| :: chunk[i] in closed)
    requires (forall i, j | 0 <= i < j < |chunk| :: chunk[i] != chunk[j])
    requires forall p | p in closed :: p < |descs0| && v2.descs[p] == descs0[p] && descs0[p].generation != Free
    ensures CountGen(ReclaimedView(g, v2, Before(chunk, |chunk|), pins, dest).descs, Free) ==
            CountGen(v2.descs, Free) + |Unpinned(descs0, chunk)|
  {
    hide ReclaimedView, CountGen, Unpinned;
    var w := ReclaimedView(g, v2, Before(chunk, |chunk|), pins, dest);
    UnpinnedDistinct(descs0, chunk);
    var freed := Unpinned(descs0, chunk);
    ReclaimedSize(g, v2, chunk, pins, dest);
    forall p | 0 <= p < |v2.descs|
      ensures p in freed ==> v2.descs[p].generation != Free && w.descs[p].generation == Free
      ensures p !in freed ==> (v2.descs[p].generation == Free <==> w.descs[p].generation == Free)
    {
      ReclaimedPage(g, v2, chunk, pins, dest, p);
      assert p in chunk ==> p in closed;
    }
    forall i | 0 <= i < |freed|
      ensures freed[i] < |v2.descs| && v2.descs[freed[i]].generation != Free && w.descs[freed[i]].generation == Free
    {
      assert freed[i] in chunk && freed[i] in closed;
    }
    FreedCount(v2.descs, w.descs, freed);
  }

  lemma ReclaimedSize(g: Geometry, v: View, chunk: seq<nat>, pins: set<nat>, dest: Generation)
    requires |v.starts| == |v.cells|
    ensures |ReclaimedView(g, v, Before(chunk, |chunk|), pins, dest).descs| == |v.descs|
    ensures |ReclaimedView(g, v, Before(chunk, |chunk|), pins, dest).starts| == |v.starts|
    ensures forall c | 0 <= c < |v.starts| && c / PAGE_CELLS !in chunk ::
              ReclaimedView(g, v, Before(chunk, |chunk|), pins, dest).starts[c] == v.starts[c]
  {
    hide InPinned;
    assert chunk[..|chunk|] == chunk;
  }

  lemma {:induction false} UnpinnedDistinct(descs: seq<PageDesc>, chunk: seq<nat>)
    requires forall i, j | 0 <= i < j < |chunk| :: chunk[i] != chunk[j]
    ensures forall i, j | 0 <= i < j < |Unpinned(descs, chunk)| ::
              Unpinned(descs, chunk)[i] != Unpinned(descs, chunk)[j]
    ensures forall p | p in Unpinned(descs, chunk) :: p in chunk
  {
    if chunk != [] {
      var n := |chunk| - 1;
      UnpinnedDistinct(descs, chunk[..n]);
      assert chunk[n] !in chunk[..n];
    }
  }

  lemma {:induction false} UnpinnedSame(a: seq<PageDesc>, b: seq<PageDesc>, chunk: seq<nat>)
    requires |a| == |b| && forall p | p in chunk && p < |a| :: a[p] == b[p]
    ensures Unpinned(a, chunk) == Unpinned(b, chunk)
  {
    if chunk != [] {
      var n := |chunk| - 1;
      assert chunk == chunk[..n] + [chunk[n]];
      UnpinnedSame(a, b, chunk[..n]);
    }
  }

  lemma DemandCount(before: seq<PageDesc>, v: View, regions: seq<AllocRegion>, freeList: seq<nat>,
                    dest: Generation, d: Demand)
    requires DemandSoFar(before, v, regions, freeList, dest, d)
    ensures CountGen(v.descs, Free) + d.Pages() == CountGen(before, Free)
  {
    hide Fits, Shelf, CountGen;
  }

  /** The demand at the start of the next chunk. */
  lemma DemandAfter(g: Geometry, descs0: seq<PageDesc>, v1: View, v2: View, regions: seq<AllocRegion>, free1: seq<nat>,
                    chunk: seq<nat>, pins: set<nat>, dest: Generation, closed: set<nat>, d: Demand)
    requires DemandSoFar(descs0, v1, regions, free1, dest, d) && dest != Free
    requires v2.descs == v1.descs && v2.starts == v1.starts && |v2.starts| == |v2.cells| && |descs0| == |v2.descs|
    requires (forall i | 0 <= i < |chunk| :: chunk[i] in closed)
    requires (forall i, j | 0 <= i < j < |chunk| :: chunk[i] != chunk[j])
    requires forall p | p in closed :: p < |descs0| && v2.descs[p] == descs0[p] && descs0[p].generation != Free
    ensures var (w, freed) := (ReclaimedView(g, v2, Before(chunk, |chunk|), pins, dest), Unpinned(descs0, chunk));
      DemandSoFar(w.descs, w, regions, free1 + freed, dest, d.Next(freed))
  {
    hide ReclaimedView, CountGen, Unpinned, Shelf, ConsesFit, BoxedFit, InPinned;
    var w, freed := ReclaimedView(g, v2, Before(chunk, |chunk|), pins, dest), Unpinned(descs0, chunk);
    ReclaimedSize(g, v2, chunk, pins, dest);
    UnpinnedDistinct(descs0, chunk);
    forall p | 0 <= p < |v2.descs|
      ensures p in freed ==> v2.descs[p].generation != Free && w.descs[p].generation == Free
      ensures p !in freed ==> (v2.descs[p].generation == Free <==> w.descs[p].generation == Free)
    {
      ReclaimedPage(g, v2, chunk, pins, dest, p);
      assert p in chunk ==> p in closed;
    }
    forall p | p in freed ensures p < |v2.descs| { assert p in chunk && p in closed; }
    ShelfReleased(v1.descs, w.descs, free1, freed);
    FreshFits(d.Next(freed));
  }

  /** A Free page is empty. */
  ghost predicate PagesTidy(v: View) {
    forall p | 0 <= p < |v.descs| && v.descs[p].generation == Free :: v.descs[p].wordsUsed == 0
  }

  lemma NoLargeKept(g: Geometry, v: View, chunk: set<nat>, pins: set<nat>, dest: Generation)
    requires |v.starts| == |v.cells| && NoLarge(v)
    ensures NoLarge(ReclaimedView(g, v, chunk, pins, dest))
  {
  }

  lemma PinsUnforwarded(v: View, pins: set<nat>)
    requires PinsOk(v, pins) && |v.cells| == |v.starts|
    ensures forall s | s in pins :: s < |v.cells|
  {
  }

  lemma SoFarParts(g: Geometry, v0: View, cards0: seq<bool>, v1: View, cards1: seq<bool>, f: map<nat, nat>,
                   dest: Generation, closed: set<nat>)
    requires GeoOk(g) && CopySoFar(g, v0, cards0, v1, cards1, f, dest, closed)
    ensures HeapOk(g, v0) && PartOk(g, v1) && Copied(g, v0, v1, f, dest) && Shaped(g, v0) && Shaped(g, v1)
  {
    hide CopyAt, Kept;
  }

  lemma RewroteTables(g: Geometry, f: map<nat, nat>, v1: View, v2: View, touched: set<nat>)
    requires GeoOk(g) && InRange(g, f) && Rewrote(g, f, v1, v2, touched)
    ensures v2.descs == v1.descs && v2.starts == v1.starts && |v2.cells| == |v1.cells|
    ensures NoLarge(v1) ==> NoLarge(v2)
  {
  }

  lemma StepOf(g: Geometry, v0: View, cards0: seq<bool>, v1: View, cards1: seq<bool>, v2: View, f: map<nat, nat>,
               touched: set<nat>, chunk: seq<nat>, marks: seq<bool>, pins: set<nat>, pinned: seq<(nat, bool)>,
               from: Generation, dest: Generation, closed: set<nat>)
    requires GeoOk(g) && CopySoFar(g, v0, cards0, v1, cards1, f, dest, closed) && dest != Free
    requires f.Keys == MovableIn(v0, marks, pins, from, chunk) && FwdMap(g, v1, f)
    requires Rewrote(g, f, v1, v2, touched) && OnlyRewritable(g, v1, touched) && ReclaimReady(g, v2, pins, pinned)
    requires forall i | 0 <= i < |chunk| :: chunk[i] in closed
    ensures ChunkStep(g, v0, v1, v2, ReclaimedView(g, v2, Before(chunk, |chunk|), pins, dest), f, touched,
                      Before(chunk, |chunk|), pins, dest)
  {
    hide ReclaimedView, Copied, PartOk, HeapOk, Rewrote, OnlyRewritable, PinsOk, PinsSolid, SnapshotOf, FwdMap,
      CopiesCarded, DescsGrown;
    SoFarParts(g, v0, cards0, v1, cards1, f, dest, closed);
    assert chunk[..|chunk|] == chunk;
    forall s | s in f ensures s / PAGE_CELLS in chunk && s !in pins && f[s] / PAGE_CELLS !in chunk {
      assert s in f.Keys && MovableFrom(v0, marks, pins, from, chunk, s);
    }
  }
}
