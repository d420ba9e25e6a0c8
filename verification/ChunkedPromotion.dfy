/** Promotion in more than one chunk: exactly when it preserves the graph, and an input on which it does not. */
module ChunkedPromotion {
  import opened Bits
  import opened Options
  import opened Bitmaps
  import opened Layouts
  import opened Pages
  import opened Objects
  import opened PageHeaps
  import opened Marking
  import opened Cards
  import opened Moves
  import opened Demands
  import opened Copying
  import opened Reclaiming
  import opened EvacMarking
  import opened Graphs
  import opened Passes
  import opened PassGraph
  import opened PassStates
  import opened BackPointers
  import opened Following
  import opened Placement
  import opened PassSteps
  import opened PassChunks
  import opened Plans
  import opened PassResults
  import opened Evacuation
  import opened Remembered
  import opened Cycles

  // -- Exactly when a promotion preserves the graph -------------------------

  /** The card scan sees no source page. */
  lemma FreshUnseen(v: View, from: Generation)
    ensures AllUnseen(Some(v.descs), from, Members(PagesIn(v.descs, from)))
  {
  }

  lemma KeptBy(g: Geometry, v: View, cards: seq<bool>, roots: seq<u64>, scan: Option<seq<PageDesc>>, from: Generation,
               pins: set<nat>)
    requires Shaped(g, v)
    ensures ToKeep(g, v, cards, roots, scan, from, pins) ==
            KeptObjs(g, v, from, EvacSeeds(g, v, from, roots, CardRoots(g, v, cards, scan, from), pins))
  {
    hide KeptObjs, EvacSeeds, CardRoots;
  }

  lemma KeptIso(g: Geometry, v: View, w: View, phi: map<nat, nat>, roots0: seq<u64>, roots: seq<u64>)
    requires GraphKept(g, v, w, phi, roots0, roots)
    ensures GeoOk(g) && Iso(g, v, w, phi)
  {
  }

  /** A promoting pass as the collections run it, with the descriptors from before it. On a heap on
      which a pass within one generation preserves the graph it does so if and only if no live,
      unpinned object of a later chunk points to one that an earlier chunk moves: `plan.straight`,
      which marks, pins, descriptors and open regions decide beforehand. */
  method Promote(h: PageHeap, from: Generation, dest: Generation, roots: array<u64>)
    returns (outcome: Outcome, ghost phi: map<nat, nat>, ghost plan: Plan)
    requires PassReady(h, from) && h.liveTarget == None && dest != Free && from != dest && RootsApart(h, roots)
    modifies h`descs, h`regions, h`bytesAlloc, h`committed, h`freeList, h`highWater, h`pinnedCells, h`liveCounts,
      h`liveTarget, h.cells, h.startTable.bits, h.markTable.bits, h.cards, roots
    ensures h.Valid() && !outcome.Misread?
    ensures plan == PlanPass(h.Geo(), old(h.V()), old(h.regions), Shelf(old(h.descs), old(h.freeList)),
                             ToKeep(h.Geo(), old(h.V()), old(h.cards[..]), old(roots[..]), Some(old(h.descs)), from,
                                    old(h.pinnedCells) + h.explicitPins.Keys),
                             old(h.pinnedCells) + h.explicitPins.Keys, from, dest)
    ensures outcome.Done? ==> GeoOk(h.Geo()) && InRange(h.Geo(), phi) && plan.affords
    ensures outcome.Done? && GraphReady(h.Geo(), old(h.V()), old(h.cards[..]), Some(old(h.descs)), old(roots[..]),
                                        old(h.pinnedCells) + h.explicitPins.Keys, from) ==>
              (Iso(h.Geo(), old(h.V()), h.V(), phi) <==> plan.straight)
  {
    hide Starts, GeoOk, MemoryOk, PagesOk, HeapOk, WellPaired, NoLarge, PinsOk, PassDone, PlanPass, PassResult, Broken,
      Iso, TablesAsPlanned, ScanEnds, Shelf, ScanFits, GraphReady, GraphKept, ToKeep, CardsClean, RegionsOk, AllUnseen,
      PagesIn, Members, PinsFollow, AsPut, FlippedOnly, KeptObjs, EvacSeeds, CardRoots, CountGen, Roomy;
    ghost var g, v, cards0, roots0 := h.Geo(), h.V(), h.cards[..], roots[..];
    PassShape(h, from);
    KeptBy(g, v, cards0, roots0, Some(h.descs), from, h.pinnedCells + h.explicitPins.Keys);
    FreshUnseen(v, from);
    ghost var live;
    var freed, flipped;
    outcome, freed, flipped, phi, live, plan := Evacuate(h, from, dest, roots, Some(h.descs));
    FreshSnapshot(v, live - h.pinnedCells, from);
    if outcome.Done? && plan.straight
       && GraphReady(g, v, cards0, Some(v.descs), roots0, h.pinnedCells, from) {
      KeptIso(g, v, h.V(), phi, roots0, roots[..]);
    }
  }

  // -- An input that takes two chunks ---------------------------------------

  /** Three pages: one cons on each of the first two, in G0, the second cons pointing to
      the first; the third page is Free. */
  function ExampleGeometry(): Geometry { Geometry(LispLayout(), 0x10000, 3) }

  function ExampleView(): View {
    View(seq(3 * PAGE_CELLS, c => if c == PAGE_CELLS then 0x10001 else 0),
         seq(3 * PAGE_CELLS, c => if c == 0 || c == PAGE_CELLS then ConsStart else NoStart),
         [PageDesc(G0, Cons, 2, 0, 1, false), PageDesc(G0, Cons, 2, 0, 1, false), FREE_DESC])
  }

  /** The one root: the second cons. */
  const EXAMPLE_ROOT: u64 := 0x10000 + 8 * 8192 + 1

  lemma ExampleWords()
    ensures GeoOk(ExampleGeometry())
    ensures var g := ExampleGeometry();
      && !InHeap(g, 0) && !IsMarker(g, 0) && !IsMarker(g, 0x10001)
      && InHeap(g, 0x10001) && CellOf(g, 0x10001) == 0 && g.layout.classify(0x10001).PointerCons?
      && InHeap(g, EXAMPLE_ROOT) && CellOf(g, EXAMPLE_ROOT) == PAGE_CELLS
            && g.layout.classify(EXAMPLE_ROOT).PointerCons?
  {
    LispLawful();
    hide And, Or, LispClassify, LispForward, LispRewrite, LispHeaderLayout, Lawful;
    LispArith(0, 0);
    LispArith(0x10001, 0);
    LispArith(EXAMPLE_ROOT, 0);
  }

  lemma PagesOneMore(descs: seq<PageDesc>, d: PageDesc, gen: Generation)
    ensures PagesIn(descs + [d], gen) == PagesIn(descs, gen) + if d.generation == gen then [|descs|] else []
    ensures CountGen(descs + [d], gen) == CountGen(descs, gen) + if d.generation == gen then 1 else 0
  {
    assert (descs + [d])[..|descs|] == descs;
  }

  lemma PagesNone(gen: Generation)
    ensures PagesIn([], gen) == [] && CountGen([], gen) == 0
  {
  }

  lemma ExampleCounts(a: PageDesc, b: PageDesc, c: PageDesc)
    requires a.generation == b.generation == G0 && c.generation == Free
    ensures PagesIn([a, b, c], G0) == [0, 1] && CountGen([a, b, c], Free) == 1
  {
    hide PagesIn, CountGen;
    PagesNone(G0);
    PagesNone(Free);
    PagesOneMore([], a, G0);
    PagesOneMore([], a, Free);
    assert [] + [a] == [a];
    PagesOneMore([a], b, G0);
    PagesOneMore([a], b, Free);
    assert [a] + [b] == [a, b];
    PagesOneMore([a, b], c, G0);
    PagesOneMore([a, b], c, Free);
    assert [a, b] + [c] == [a, b, c];
  }

  lemma ExampleChunks(a: PageDesc, b: PageDesc, c: PageDesc)
    requires a.generation == b.generation == G0 && c.generation == Free
    ensures PagesIn([a, b, c], G0) == [0, 1] && ChunkSize([a, b, c], {}, G0, 2) == 1 && !OneChunk([a, b, c], {}, G0)
  {
    hide PagesIn, CountGen;
    ExampleCounts(a, b, c);
    assert PinnedPages([a, b, c], {}, G0) == {};
  }

  /** Two conses on two G0 pages, the second one's first cell holding `w`, a tagged
      pointer to the first. */
  ghost predicate TwoConses(g: Geometry, v: View, w: u64) {
    && Shaped(g, v) && v.descs == [PageDesc(G0, Cons, 2, 0, 1, false), PageDesc(G0, Cons, 2, 0, 1, false), FREE_DESC]
    && (forall c: nat | c < |v.starts| :: v.starts[c] == if c == 0 || c == PAGE_CELLS then ConsStart else NoStart)
    && (forall c: nat | c < |v.cells| :: v.cells[c] == if c == PAGE_CELLS then w else 0)
    && !InHeap(g, 0) && !IsMarker(g, 0) && !IsMarker(g, w)
    && InHeap(g, w) && CellOf(g, w) == 0 && g.layout.classify(w).PointerCons?
  }

  lemma ExampleIs()
    ensures TwoConses(ExampleGeometry(), ExampleView(), 0x10001)
  {
    hide InHeap, CellOf, IsMarker;
    ExampleWords();
  }

  lemma ConsObjects(g: Geometry, v: View, w: u64, x: nat)
    requires TwoConses(g, v, w)
    ensures IsObj(v, x) <==> x == 0 || x == PAGE_CELLS
    ensures IsObj(v, x) ==> LayoutAt(g, v, x) == ObjectLayout(2, 0, 2) && GenAt(v, x) == G0
    ensures x in AllObjs(v) <==> x == 0 || x == PAGE_CELLS
  {
    hide InHeap, CellOf, IsMarker;
    assert |v.starts| == 3 * PAGE_CELLS;
  }

  /** The example is a well-formed heap, good in every respect the collector asks for, whose
      nursery takes two chunks, and the object of the second points into the first. */
  lemma TwoChunkInput(cards: seq<bool>)
    requires |cards| == CARDS_PER_PAGE * 3
    ensures var (g, v) := (ExampleGeometry(), ExampleView());
      && GeoOk(g) && GoodHeap(g, v, cards, [EXAMPLE_ROOT]) && !OneChunk(v.descs, {}, G0)
      && PagesIn(v.descs, G0) == [0, 1] && ChunkSize(v.descs, {}, G0, 2) == 1
      && IsObj(v, PAGE_CELLS) && GenAt(v, PAGE_CELLS) == G0 && IsPtrOff(g, v, PAGE_CELLS, 0)
      && PAGE_CELLS < |v.cells| && InHeap(g, Field(v, PAGE_CELLS, 0)) && CellOf(g, Field(v, PAGE_CELLS, 0)) == 0
            && IsObj(v, 0)
  {
    hide HeapOk, GapFree, ClosedHeap, CardsCover, ChunkSize, OneChunk, PagesIn, GeoOk, InHeap, CellOf, ValidField,
      ExampleView, ExampleGeometry;
    var g, v := ExampleGeometry(), ExampleView();
    ExampleWords();
    ExampleIs();
    ExampleChunks(v.descs[0], v.descs[1], v.descs[2]);
    ConsObjects(g, v, 0x10001, 0);
    ConsObjects(g, v, 0x10001, PAGE_CELLS);
    ConsHeapOk(g, v, 0x10001);
    ConsClosed(g, v, 0x10001);
    ConsCovered(g, v, 0x10001, cards);
    ConsValid(g, v, 0x10001, EXAMPLE_ROOT);
  }

  lemma ConsHeapOk(g: Geometry, v: View, w: u64)
    requires TwoConses(g, v, w)
    ensures HeapOk(g, v) && GapFree(g, v)
  {
    hide InHeap, CellOf, IsMarker;
    forall x: nat | IsObj(v, x) ensures x < |v.starts| && ObjOk(g, v, x) { ConsObjects(g, v, w, x); }
    forall p | 0 <= p < |v.descs| ensures Tiled(g, v, p) {
      forall y: nat | y < |v.starts| && y / PAGE_CELLS == p && y % PAGE_CELLS < v.descs[p].wordsUsed
        ensures Covered(g, v, y) {
        OwnerIs(v.starts, PAGE_CELLS * p, y);
      }
    }
  }

  lemma ConsValid(g: Geometry, v: View, w: u64, word: u64)
    requires TwoConses(g, v, w)
    requires !InHeap(g, word) || word == w || (CellOf(g, word) == PAGE_CELLS && g.layout.classify(word).PointerCons?)
    ensures ValidField(g, v, AllObjs(v), word)
  {
    hide InHeap, CellOf, IsMarker, IsObj, AllObjs;
    if InHeap(g, word) { ConsObjects(g, v, w, CellOf(g, word)); }
  }

  lemma ConsClosed(g: Geometry, v: View, w: u64)
    requires TwoConses(g, v, w)
    ensures ClosedHeap(g, v, AllObjs(v))
  {
    hide InHeap, CellOf, IsMarker, ValidField;
    ConsValid(g, v, w, w);
    ConsValid(g, v, w, 0);
    forall s | s in AllObjs(v)
      ensures IsObj(v, s) && s + SizeOf(g, v, s) <= |v.cells|
      ensures forall i: nat | i < SizeOf(g, v, s) && IsPtrOff(g, v, s, i) ::
                ValidField(g, v, AllObjs(v), Field(v, s, i))
    {
      ConsObjects(g, v, w, s);
    }
  }

  /** One generation, so there is nothing for a card to record. */
  lemma ConsCovered(g: Geometry, v: View, w: u64, cards: seq<bool>)
    requires TwoConses(g, v, w) && |cards| == CARDS_PER_PAGE * 3
    ensures CardsCover(g, v, cards)
  {
    hide InHeap, CellOf, IsMarker, IsObj;
    ConsObjects(g, v, w, 0);
    forall s: nat | s < |v.starts| && IsObj(v, s)
      ensures s + SizeOf(g, v, s) <= |v.cells| && ObjCarded(g, v, cards, s)
    {
      ConsObjects(g, v, w, s);
    }
  }

  /** The second cons is a root and the first hangs off it, so a pass keeps both. */
  lemma BothKept(g: Geometry, v: View, w: u64, root: u64, cards: seq<bool>, scan: Option<seq<PageDesc>>)
    requires TwoConses(g, v, w) && InHeap(g, root) && CellOf(g, root) == PAGE_CELLS
    requires g.layout.classify(root).PointerCons?
    ensures ToKeep(g, v, cards, [root], scan, G0, {}) == {0, PAGE_CELLS}
  {
    hide InHeap, CellOf, IsMarker, CardRoots, WordsAt, CrossPinPtrs;
    ConsObjects(g, v, w, 0);
    ConsObjects(g, v, w, PAGE_CELLS);
    var seeds := EvacSeeds(g, v, G0, [root], CardRoots(g, v, cards, scan, G0), {});
    assert [root][0] == root && root in WordsOf([root]) && Follows(g, v, G0, root);
    SeedOf(g, v, G0, WordsOf([root]), root);
    ReachSeed(g, v, G0, seeds, PAGE_CELLS);
    assert EdgeAt(g, v, G0, PAGE_CELLS, 0, 0) && Edge(g, v, G0, PAGE_CELLS, 0);
    hide EvacSeeds, Edge, EdgeAt;
    ReachStep(g, v, G0, seeds, PAGE_CELLS, 0);
    forall x ensures x in ToKeep(g, v, cards, [root], scan, G0, {}) <==> x == 0 || x == PAGE_CELLS {
      if x >= 0 { ConsObjects(g, v, w, x); }
    }
  }

  /** Two chunks: the first opens a page for its cons, the second finds room there; and the
      object of the second points back to that of the first. */
  lemma TwoChunkPlan(g: Geometry, v: View, w: u64, regions: seq<AllocRegion>, shelf: seq<nat>)
    requires TwoConses(g, v, w) && |regions| == 6 && RegionsOk(v.descs, regions)
    ensures PlanPass(g, v, regions, shelf, {0, PAGE_CELLS}, {}, G0, G1).affords
    ensures !PlanPass(g, v, regions, shelf, {0, PAGE_CELLS}, {}, G0, G1).straight
  {
    hide TwoConses, PlanFrom, PagesIn, CountGen, RegionsOk, NoBack, AloneOn, SizeOf, FirstDemand;
    var live, d, pages := {0, PAGE_CELLS}, FirstDemand(regions, shelf, G0, G1), [0, 1];
    ExampleDescs(g, v, w);
    NoOpenPage(v.descs, regions, shelf, G0, G1);
    ConsAlone(g, v, w, 0);
    ConsAlone(g, v, w, 1);
    var d1 := d.More(0, true, 2).Next([0]);
    PlanOne(g, v, live, G0, G1, pages, 0, 1, d, 0, d.More(0, true, 2));
    PlanOne(g, v, live, G0, G1, pages, 1, 1, d1, PAGE_CELLS, d1.More(PAGE_CELLS, true, 2));
    PlanEnd(g, v, live, {}, G0, G1, pages, 2, d1.More(PAGE_CELLS, true, 2).Next([1]));
    PointsBack(g, v, w);
  }

  lemma ExampleDescs(g: Geometry, v: View, w: u64)
    requires TwoConses(g, v, w)
    ensures PagesIn(v.descs, G0) == [0, 1] && CountGen(v.descs, Free) == 1
    ensures forall p | 0 <= p < |v.descs| :: v.descs[p].generation != G1
  {
    hide PagesIn, CountGen;
    ExampleCounts(v.descs[0], v.descs[1], v.descs[2]);
  }

  lemma ConsAlone(g: Geometry, v: View, w: u64, p: nat)
    requires TwoConses(g, v, w) && p < 2
    ensures AloneOn(g, v, {0, PAGE_CELLS}, G0, p, PAGE_CELLS * p)
    ensures v.starts[PAGE_CELLS * p] == ConsStart && SizeOf(g, v, PAGE_CELLS * p) == 2
  {
    hide InHeap, CellOf, IsMarker;
    ConsObjects(g, v, w, PAGE_CELLS * p);
  }

  lemma PointsBack(g: Geometry, v: View, w: u64)
    requires TwoConses(g, v, w)
    ensures !NoBack(g, v, {0, PAGE_CELLS}, {}, {0}, Tail([0, 1], 1))
  {
    hide InHeap, CellOf, IsMarker;
    ConsObjects(g, v, w, PAGE_CELLS);
    assert [0, 1][1..] == [1] && 1 in Tail([0, 1], 1);
    assert BackAt(g, v, {0, PAGE_CELLS}, {}, {0}, Tail([0, 1], 1), PAGE_CELLS, 0);
  }

  /** Without pages of `dest` no region of it is open. */
  lemma NoOpenPage(descs: seq<PageDesc>, regions: seq<AllocRegion>, shelf: seq<nat>, from: Generation, dest: Generation)
    requires |regions| == 6 && RegionsOk(descs, regions) && HasRegion(dest, Cons) && from != dest && from != Free
    requires forall p | 0 <= p < |descs| :: descs[p].generation != dest
    ensures var d := FirstDemand(regions, shelf, from, dest);
      Fresh(d) && d.consFill == PAGE_CELLS && d.boxedFill == PAGE_CELLS && d.shelf == shelf && d.at == map[]
  {
    OpenSupplied(descs, regions, from, dest, Cons);
    OpenSupplied(descs, regions, from, dest, Boxed);
    NoneOpen(descs, regions, dest, Cons);
    NoneOpen(descs, regions, dest, Boxed);
  }

  lemma NoneOpen(descs: seq<PageDesc>, regions: seq<AllocRegion>, dest: Generation, kind: PageKind)
    requires |regions| == 6 && RegionsOk(descs, regions) && HasRegion(dest, kind)
    requires forall p | 0 <= p < |descs| :: descs[p].generation != dest
    ensures regions[RegionIndex(dest, kind)].currentPage.None?
  {
    assert RegionGen(RegionIndex(dest, kind)) == dest;
  }

  /** What a broken promotion of the example has done: the field of the second cons still holds the
      old word, although the first cons has moved. */
  lemma WhatBroke(g: Geometry, v: View, word: u64, w: View, phi: map<nat, nat>)
    requires TwoConses(g, v, word) && phi.Keys == {0, PAGE_CELLS} && Broken(g, v, w, phi, {}, {})
    ensures phi[0] != 0 && phi[PAGE_CELLS] < |w.cells| && Field(w, phi[PAGE_CELLS], 0) == word
  {
    hide InHeap, CellOf, IsMarker;
    var s: nat, i: nat :| Dangling(g, v, w, phi, {}, {}, s, i);
    assert s in phi.Keys;
    ConsObjects(g, v, word, s);
    assert i < 2 && v.cells[s + i] != 0;
  }

  /** The promotion of the example, run to its end: it ends well as far as the collector can tell,
      and leaves the second cons pointing to where the first one was. */
  method PromoteExample(h: PageHeap, roots: array<u64>, ghost w: u64)
    returns (outcome: Outcome, ghost phi: map<nat, nat>)
    requires PassReady(h, G0) && h.liveTarget == None && RootsApart(h, roots) && TwoConses(h.Geo(), h.V(), w)
    requires roots.Length == 1 && InHeap(h.Geo(), roots[0]) && CellOf(h.Geo(), roots[0]) == PAGE_CELLS
    requires h.layout.classify(roots[0]).PointerCons?
    requires h.pinnedCells == {} && h.explicitPins.Keys == {} && !h.poisoned
    modifies h`descs, h`regions, h`bytesAlloc, h`committed, h`freeList, h`highWater, h`pinnedCells, h`liveCounts,
      h`liveTarget, h.cells, h.startTable.bits, h.markTable.bits, h.cards, roots
    ensures outcome.Done? && phi.Keys == {0, PAGE_CELLS} && CellOf(h.Geo(), w) == 0 && phi[0] != 0
    ensures phi[PAGE_CELLS] < |h.V().cells| && Field(h.V(), phi[PAGE_CELLS], 0) == w
    ensures GeoOk(h.Geo()) && !Iso(h.Geo(), old(h.V()), h.V(), phi)
  {
    hide Starts, GeoOk, MemoryOk, PagesOk, HeapOk, WellPaired, NoLarge, PinsOk, PassDone, AsPlanned, PlanPass, InHeap,
      CellOf, TwoConses, PassResult, Broken, Iso, TablesAsPlanned, ScanEnds, Shelf, ScanFits, GraphReady, ToKeep,
      CardsClean, RegionsOk, AllUnseen, PagesIn, Members;
    hide PassReady, CountGen, Roomy, NoPinBytes;
    ghost var g, v, cards, regions, shelf := h.Geo(), h.V(), h.cards[..], h.regions, Shelf(h.descs, h.freeList);
    assert roots[..] == [roots[0]];
    PassShape(h, G0);
    PassRegions(h, G0);
    BothKept(g, v, w, roots[0], cards, Some(h.descs));
    assert ToKeep(g, v, cards, roots[..], Some(h.descs), G0, {}) == {0, PAGE_CELLS};
    KeptBy(g, v, cards, roots[..], Some(h.descs), G0, {});
    TwoChunkPlan(g, v, w, regions, shelf);
    FreshSnapshot(v, {0, PAGE_CELLS} - {}, G0);
    FreshUnseen(v, G0);
    AimedAtFirst(g, v, w);
    ghost var live, plan;
    var freed, flipped;
    outcome, freed, flipped, phi, live, plan := Evacuate(h, G0, G1, roots, Some(h.descs));
    assert h.pinnedCells == {};
    assert live == {0, PAGE_CELLS};
    assert plan == PlanPass(g, v, regions, shelf, {0, PAGE_CELLS}, {}, G0, G1);
    DoneKeys(h, G0, G1, v, cards, phi, live);
    WhatBroke(g, v, w, h.V(), phi);
  }

  lemma PassRegions(h: PageHeap, from: Generation)
    requires PassReady(h, from)
    ensures h.Valid() && RegionsOk(h.descs, h.regions)
  {
    hide Starts, GeoOk, MemoryOk, PagesOk, HeapOk, RegionsOk, NoLarge, PinsOk, CardsClean, WellPaired;
  }

  lemma AimedAtFirst(g: Geometry, v: View, w: u64)
    requires TwoConses(g, v, w)
    ensures InHeap(g, w) && CellOf(g, w) == 0
  {
  }

  lemma DoneKeys(h: PageHeap, from: Generation, dest: Generation, v: View, cards0: seq<bool>, phi: map<nat, nat>,
                 live: set<nat>)
    requires PassDone(h, from, dest, v, cards0, phi, live)
    ensures phi.Keys == live
  {
    hide Starts, PassReady, InPlace, CardedSoFar, PagesTiled;
  }
}
