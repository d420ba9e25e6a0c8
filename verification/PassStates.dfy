/** What an evacuation pass keeps from chunk to chunk. */
module PassStates {
  import opened Bits
  import opened Options
  import opened Bitmaps
  import opened Pages
  import opened Objects
  import opened PageHeaps
  import opened Cards
  import opened Moves
  import opened Rewrite
  import opened Copying
  import opened Reclaiming
  import opened EvacMarking
  import opened Graphs
  import opened Chunks
  import opened Placement
  import opened Passes
  import opened PassGraph
  import opened PassSteps

  // -- What a pass keeps from chunk to chunk --------------------------------

  /** If source and destination differ, only pages still to come are left in the source generation. */
  ghost predicate Emptied(v: View, from: Generation, dest: Generation, rest: set<nat>) {
    from != dest ==> forall p | 0 <= p < |v.descs| && v.descs[p].generation == from :: p in rest
  }

  /** No page entered a generation other than `dest`. */
  ghost predicate OnlyIntoDest(vs: View, v: View, dest: Generation) {
    |vs.descs| == |v.descs|
    && forall p | 0 <= p < |v.descs| && v.descs[p].generation != Free && v.descs[p].generation != dest ::
         vs.descs[p].generation == v.descs[p].generation
  }

  ghost predicate NoPinBytes(v: View) {
    forall p | 0 <= p < |v.descs| :: !v.descs[p].HasPins()
  }

  ghost predicate PassState(g: Geometry, vs: View, cardsS: seq<bool>, v: View, cards: seq<bool>, phi: map<nat, nat>,
                            live: set<nat>, pins: set<nat>, from: Generation, dest: Generation, rest: set<nat>)
  {
    && GeoOk(g) && HeapOk(g, vs) && HeapOk(g, v) && Placed(g, vs, v, phi, live, pins, from, dest, rest)
    && CardedSoFar(g, vs, phi, from, rest, cardsS, cards) && TiledSoFar(g, vs, v, from, rest)
    && Emptied(v, from, dest, rest) && OnlyIntoDest(vs, v, dest)
  }

  /** Nothing has moved yet. */
  function Staying(live: set<nat>): (phi: map<nat, nat>)
    ensures phi.Keys == live && phi.Values == live && forall s | s in live :: phi[s] == s
  {
    var phi := map s | s in live :: s;
    assert forall s | s in live :: phi[s] in phi.Values;
    phi
  }

  lemma PlacedStart(g: Geometry, vs: View, marks: seq<bool>, pins: set<nat>, from: Generation, dest: Generation,
                    rest: set<nat>)
    requires HeapOk(g, vs) && forall p :: p in rest <==> 0 <= p < |vs.descs| && vs.descs[p].generation == from
    ensures Placed(g, vs, vs, Staying(LiveSet(vs, from, marks)), LiveSet(vs, from, marks), pins, from, dest, rest)
  {
    hide ObjOk, LayoutAt;
    var live := LiveSet(vs, from, marks);
    var phi := Staying(live);
    InRest(vs, from, rest);
    assert Shaped(g, vs) && InRange(g, phi) && Injective(phi);
    forall s | s in live ensures InPlace(g, vs, vs, pins, from, dest, rest, s, s) {
      ObjFitsView(g, vs, s);
    }
    forall x: nat | x < |vs.starts| && IsObj(vs, x) && x / PAGE_CELLS !in rest ensures x in phi.Values {
      assert x in live;
    }
    hide InPlace, IsObj, LiveSet, HeapOk;
    assert RestKept(vs, vs, from, rest);
    MakePlaced(g, vs, vs, phi, live, pins, from, dest, rest);
  }

  lemma StateStart(g: Geometry, vs: View, cards: seq<bool>, marks: seq<bool>, pins: set<nat>, from: Generation,
                   dest: Generation, rest: set<nat>)
    requires GeoOk(g) && HeapOk(g, vs)
    requires forall p :: p in rest <==> 0 <= p < |vs.descs| && vs.descs[p].generation == from
    ensures PassState(g, vs, cards, vs, cards, Staying(LiveSet(vs, from, marks)), LiveSet(vs, from, marks), pins, from,
        dest, rest)
  {
    hide ObjOk, LayoutAt, HeapOk, LiveSet, Placed, IsObj, BlockCarded, Tiled, SizeOf;
    PlacedStart(g, vs, marks, pins, from, dest, rest);
    InRest(vs, from, rest);
    PlacedRest(g, vs, vs, Staying(LiveSet(vs, from, marks)), LiveSet(vs, from, marks), pins, from, dest, rest);
    assert CardedSoFar(g, vs, Staying(LiveSet(vs, from, marks)), from, rest, cards, cards);
    assert TiledSoFar(g, vs, vs, from, rest);
  }

  lemma InRest(vs: View, from: Generation, rest: set<nat>)
    requires forall p :: p in rest <==> 0 <= p < |vs.descs| && vs.descs[p].generation == from
    ensures forall s: nat | s / PAGE_CELLS < |vs.descs| && GenAt(vs, s) == from :: s / PAGE_CELLS in rest
  {
  }

  lemma ObjFitsView(g: Geometry, v: View, s: nat)
    requires HeapOk(g, v) && IsObj(v, s)
    ensures SizeOf(g, v, s) >= 1 && s + SizeOf(g, v, s) <= |v.cells|
  {
    assert ObjOk(g, v, s);
    ExtentOwner(g, v, s, SizeOf(g, v, s) - 1);
  }

  lemma EmptiedStep(g: Geometry, v0: View, cards0: seq<bool>, v1: View, cards1: seq<bool>, v2: View, v3: View,
                    f: map<nat, nat>, touched: set<nat>, from: Generation, dest: Generation, rest: set<nat>,
                    done: set<nat>, pins: set<nat>)
    requires GeoOk(g) && CopySoFar(g, v0, cards0, v1, cards1, f, dest, rest) && from != Free
    requires ChunkStep(g, v0, v1, v2, v3, f, touched, done, pins, dest)
    ensures Emptied(v0, from, dest, rest) ==> Emptied(v3, from, dest, rest - done)
    ensures NoPinBytes(v0) ==> NoPinBytes(v3)
    ensures OnlyIntoDest(v0, v3, dest)
  {
    hide CopyAt, Kept, HeapOk, PartOk, CopiesCarded, TiledKept, Copied, FwdMap, PinsOk, PinsSolid, OnlyRewritable,
      InPinned, Reloc;
  }

  lemma StateHeapOk(g: Geometry, vs: View, cardsS: seq<bool>, v: View, cards: seq<bool>, phi: map<nat, nat>,
                    live: set<nat>, pins: set<nat>, from: Generation, dest: Generation, rest: set<nat>)
    requires PassState(g, vs, cardsS, v, cards, phi, live, pins, from, dest, rest)
    ensures GeoOk(g) && HeapOk(g, v) && HeapOk(g, vs) && Emptied(v, from, dest, rest) && Shaped(g, vs) && Shaped(g, v)
    ensures InRange(g, phi) && Placed(g, vs, v, phi, live, pins, from, dest, rest) && RestKept(vs, v, from, rest)
  {
    hide CardedSoFar, TiledSoFar, Emptied, InPlace, RestKept, ObjOk;
  }

  /** What a chunk does to the state of the pass. */
  lemma StateStep(h: PageHeap, vs: View, cardsS: seq<bool>, v0: View, cards0: seq<bool>, roots0: seq<u64>,
                  roots: seq<u64>, phi: map<nat, nat>, live: set<nat>, marks: seq<bool>, from: Generation,
                  dest: Generation, rest: set<nat>, chunk: seq<nat>, scan: Option<seq<PageDesc>>, t: ChunkTrace)
    requires PassState(h.Geo(), vs, cardsS, v0, cards0, phi, live, h.pinnedCells, from, dest, rest)
    requires ChunkDone(h, from, dest, chunk, scan, v0, cards0, roots0, roots, rest, t)
    requires live == LiveSet(vs, from, marks) && marks == h.markTable.Map() && NoLarge(v0) && PagesTidy(t.v1)
    requires from != Free && dest != Free && (forall s | s in h.pinnedCells :: s in live)
    requires (forall i | 0 <= i < |chunk| :: chunk[i] in rest)
    ensures PassState(h.Geo(), vs, cardsS, h.V(), h.cards[..], Onward(phi, t.f), live, h.pinnedCells, from, dest,
                      rest - Before(chunk, |chunk|))
    ensures t.f.Keys <= phi.Values
    ensures forall x | x in phi.Values :: Survives(t.f, Before(chunk, |chunk|), h.pinnedCells, x) && IsObj(v0, x)
  {
    hide Starts, HeapOk, Placed, CardedSoFar, TiledSoFar, Emptied, CopySoFar, ChunkStep, MovableIn, Marks, Phase2Cells,
      PinsCarded, RootsMoved, LiveSet, NoLarge, PagesTidy, Survives, IsObj, Before, Sealed, GeoOk, WellPaired;
    var g, pins, done := h.Geo(), h.pinnedCells, Before(chunk, |chunk|);
    var touched := Phase2Cells(g, t.v1, t.cards1, scan, from, dest, pins);
    PlacedShape(g, vs, v0, phi, live, pins, from, dest, rest);
    ChunkShapes(g, v0, t.v1, t.v2, h.V(), t.f, touched, done, pins, dest);
    BeforeIn(chunk, rest);
    PlacedRest(g, vs, v0, phi, live, pins, from, dest, rest);
    TablesStep(g, vs, v0, cards0, t.v1, t.cards1, t.v2, h.V(), t.f, touched, from, dest, rest, done, pins);
    LiveInChunk(g, vs, v0, phi, live, pins, from, dest, rest, chunk, t.f, marks);
    PlacedStep(g, vs, v0, t.v1, t.v2, h.V(), phi, live, pins, from, dest, rest, done, t.f, touched);
    SoFarCards(g, v0, cards0, t.v1, t.cards1, t.f, dest, rest);
    CardedChunk(g, vs, v0, t.v1, t.v2, h.V(), phi, live, pins, from, dest, rest, t.f, touched, done, cardsS, cards0,
      t.cards1, h.cards[..]);
    TidyFree(t.v1);
    TiledStep(g, vs, v0, cards0, t.v1, t.cards1, t.v2, h.V(), t.f, touched, from, dest, rest, done, pins);
    EmptiedStep(g, v0, cards0, t.v1, t.cards1, t.v2, h.V(), t.f, touched, from, dest, rest, done, pins);
    ChunkHeapOk(g, v0, t.v1, t.v2, h.V(), t.f, touched, done, pins, dest);
  }

  lemma BeforeIn(chunk: seq<nat>, rest: set<nat>)
    requires forall i | 0 <= i < |chunk| :: chunk[i] in rest
    ensures Before(chunk, |chunk|) <= rest
  {
  }

  lemma PlacedRest(g: Geometry, vs: View, v: View, phi: map<nat, nat>, live: set<nat>, pins: set<nat>, from: Generation,
                   dest: Generation, rest: set<nat>)
    requires Placed(g, vs, v, phi, live, pins, from, dest, rest)
    ensures Shaped(g, vs) && Shaped(g, v) && RestKept(vs, v, from, rest)
  {
    hide InPlace, RestKept;
  }

  lemma SoFarCards(g: Geometry, v0: View, cards0: seq<bool>, v1: View, cards1: seq<bool>, f: map<nat, nat>,
                   dest: Generation, closed: set<nat>)
    requires GeoOk(g) && CopySoFar(g, v0, cards0, v1, cards1, f, dest, closed)
    ensures |v0.starts| == |v0.cells| && CopiesCarded(g, v0, f, cards0, cards1) && DescsGrown(v0.descs, v1.descs, dest)
    ensures |cards0| == |cards1| && (forall k | 0 <= k < |cards0| && cards0[k] :: cards1[k])
  {
    hide CopyAt, Kept;
  }

  lemma TidyFree(v: View)
    requires PagesTidy(v)
    ensures forall p | 0 <= p < |v.descs| && v.descs[p].generation == Free :: v.descs[p].wordsUsed == 0
  {
  }

  // -- The graph ------------------------------------------------------------

  /** What the graph theorem asks of the heap before a pass: words lead to objects,
      and pointers into the source generation from outside are found. */
  ghost predicate GraphReady(g: Geometry, v: View, cards: seq<bool>, scan: Option<seq<PageDesc>>, roots: seq<u64>,
                             pins: set<nat>, from: Generation)
  {
    && Shaped(g, v) && ClosedHeap(g, v, AllObjs(v))
    && (forall i | 0 <= i < |roots| :: ValidField(g, v, AllObjs(v), roots[i]))
    && OutsideCovered(g, v, CardRoots(g, v, cards, scan, from), pins, from)
  }

  /** The graph so far: isomorphic, roots included. */
  ghost predicate GraphKept(g: Geometry, vs: View, v: View, phi: map<nat, nat>, roots0: seq<u64>, roots: seq<u64>) {
    GeoOk(g) && Iso(g, vs, v, phi) && RootsImage(g, phi, roots0, roots)
  }

  lemma GraphStart(g: Geometry, vs: View, cards: seq<bool>, scan: Option<seq<PageDesc>>, roots: seq<u64>,
                   pins: set<nat>, from: Generation, marks: seq<bool>)
    requires GeoOk(g) && HeapOk(g, vs) && GraphReady(g, vs, cards, scan, roots, pins, from)
    requires MarkedExactly(g, vs, from, EvacSeeds(g, vs, from, roots, CardRoots(g, vs, cards, scan, from), pins), marks)
    ensures ClosedHeap(g, vs, LiveSet(vs, from, marks))
    ensures GraphKept(g, vs, vs, Staying(LiveSet(vs, from, marks)), roots, roots)
  {
    hide CardRoots, EvacSeeds, MarkedExactly, OutsideCovered, ObjOk, LiveSet, ClosedHeap, ValidField;
    var live, visited := LiveSet(vs, from, marks), CardRoots(g, vs, cards, scan, from);
    LiveClosed(g, vs, from, roots, visited, pins, marks);
    IsoStaying(g, vs, live);
    forall i | 0 <= i < |roots| ensures WordImage(g, Staying(live), roots[i], roots[i]) {
      LiveRoot(g, vs, from, roots, visited, pins, marks, i);
      RootStays(g, vs, live, roots[i]);
    }
  }

  lemma IsoStaying(g: Geometry, v: View, live: set<nat>)
    requires GeoOk(g) && Shaped(g, v) && ClosedHeap(g, v, live)
    ensures Iso(g, v, v, Staying(live))
  {
    IsoRefl(g, v, live);
    assert Staying(live) == map s | s in live :: s;
  }

  lemma RootStays(g: Geometry, v: View, live: set<nat>, w: u64)
    requires GeoOk(g) && Shaped(g, v) && ValidField(g, v, live, w) && InRange(g, Staying(live))
    ensures WordImage(g, Staying(live), w, w)
  {
  }

  lemma MovedFromRest(v: View, marks: seq<bool>, pins: set<nat>, from: Generation, chunk: seq<nat>, rest: set<nat>)
    requires forall i | 0 <= i < |chunk| :: chunk[i] in rest
    ensures forall s | s in MovableIn(v, marks, pins, from, chunk) :: s / PAGE_CELLS in rest
  {
  }

  lemma SoFarDescs(g: Geometry, v0: View, cards0: seq<bool>, v1: View, cards1: seq<bool>, f: map<nat, nat>,
                   dest: Generation, closed: set<nat>)
    requires GeoOk(g) && CopySoFar(g, v0, cards0, v1, cards1, f, dest, closed)
    ensures Copied(g, v0, v1, f, dest) && DescsGrown(v0.descs, v1.descs, dest)
  {
    hide CopyAt, Kept, DescsGrown, Copied;
  }

  /** A chunk carries the graph on: always within one generation, and when promoting if no
      pointer leads from a later chunk back into it. */
  lemma GraphChunk(h: PageHeap, vs: View, cardsS: seq<bool>, v0: View, cards0: seq<bool>, rootsS: seq<u64>,
                   roots0: seq<u64>, roots: seq<u64>, phi: map<nat, nat>, live: set<nat>, marks: seq<bool>,
                   from: Generation, dest: Generation, rest: set<nat>, chunk: seq<nat>, scan: Option<seq<PageDesc>>,
                   t: ChunkTrace)
    requires PassState(h.Geo(), vs, cardsS, v0, cards0, phi, live, h.pinnedCells, from, dest, rest)
    requires ChunkDone(h, from, dest, chunk, scan, v0, cards0, roots0, roots, rest, t)
    requires live == LiveSet(vs, from, marks) && marks == h.markTable.Map()
    requires (forall i | 0 <= i < |chunk| :: chunk[i] in rest)
    requires (from == dest
        || NoBack(h.Geo(), vs, live, h.pinnedCells, Before(chunk, |chunk|), rest - Before(chunk, |chunk|)))
    requires t.f.Keys <= phi.Values
    requires forall x | x in phi.Values :: Survives(t.f, Before(chunk, |chunk|), h.pinnedCells, x) && IsObj(v0, x)
    requires GraphReady(h.Geo(), vs, cardsS, scan, rootsS, h.pinnedCells, from) && ClosedHeap(h.Geo(), vs, live)
    requires GraphKept(h.Geo(), vs, v0, phi, rootsS, roots0)
    ensures GraphKept(h.Geo(), vs, h.V(), Onward(phi, t.f), rootsS, roots)
  {
    hide Starts, HeapOk, Placed, TiledSoFar, Emptied, CopySoFar, ChunkStep, MovableIn, Marks, Phase2Cells, PinsCarded,
      BlockCarded, RootsMoved, LiveSet, Survives, IsObj, Before, Sealed, GeoOk, WellPaired, ClosedHeap, Iso,
      RootsImage, OutsideCovered, CardRoots, PartOk, Copied, FwdMap, DescsGrown, SizeOf, ValidField, NoBack;
    var g, pins, done := h.Geo(), h.pinnedCells, Before(chunk, |chunk|);
    var touched := Phase2Cells(g, t.v1, t.cards1, scan, from, dest, pins);
    PlacedShape(g, vs, v0, phi, live, pins, from, dest, rest);
    ChunkShapes(g, v0, t.v1, t.v2, h.V(), t.f, touched, done, pins, dest);
    StepCopied(g, v0, t.v1, t.v2, h.V(), t.f, touched, done, pins, dest);
    MovedFromRest(v0, h.markTable.Map(), pins, from, chunk, rest);
    SoFarCards(g, v0, cards0, t.v1, t.cards1, t.f, dest, rest);
    SoFarDescs(g, v0, cards0, t.v1, t.cards1, t.f, dest, rest);
    assert forall s | s in t.f :: s in phi.Values && s / PAGE_CELLS in rest;
    OnwardInjective(g, v0, t.v1, phi, t.f, dest);
    MovingInjective(g, v0, t.v1, t.f, dest, phi.Values);
    FwdRange(g, t.v1, t.f);
    GraphStep(g, vs, v0, t.v1, t.v2, h.V(), phi, live, pins, from, dest, rest, t.f, marks, cardsS, t.cards1, scan,
      done);
    RootsStep(g, phi, t.f, rootsS, roots0, roots);
  }
}
