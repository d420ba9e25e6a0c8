/** One turn of the chunk loop of an evacuation pass. */
module PassChunks {
  import opened Bits
  import opened Options
  import opened Bitmaps
  import opened Layouts
  import opened Pages
  import opened Objects
  import opened PageHeaps
  import opened Cards
  import opened Moves
  import opened Rewrite
  import opened Demands
  import opened Copying
  import opened Reclaiming
  import opened Graphs
  import opened Chunks
  import opened Placement
  import opened Passes
  import opened PassGraph
  import opened PassSteps
  import opened PassStates
  import opened BackPointers
  import opened Following
  import opened Misreads

  /** On the pages of `flipped` nothing is left but pinned objects. */
  ghost predicate FlippedOnly(v: View, flipped: set<nat>, pins: set<nat>) {
    forall x: nat | x < |v.starts| && IsObj(v, x) && x / PAGE_CELLS in flipped :: x in pins
  }

  /** Everything the chunk loop keeps, with the source pages of `rest` still to come and those of
      `closed`, which include the flipped ones, shut to allocation. */
  ghost predicate Passing(h: PageHeap, vs: View, cardsS: seq<bool>, phi: map<nat, nat>, live: set<nat>,
                          from: Generation, dest: Generation, rest: set<nat>, closed: set<nat>,
                          pinned: seq<(nat, bool)>)
    reads h, h.cells, h.startTable.bits, h.cards
  {
    && h.Inv() && NoLarge(h.V()) && PinsOk(h.V(), h.pinnedCells) && SnapshotOf(h.V(), h.pinnedCells, pinned)
    && rest <= closed && Sealed(h.descs, h.regions, closed) && FlippedOnly(h.V(), closed - rest, h.pinnedCells)
    && PassState(h.Geo(), vs, cardsS, h.V(), h.cards[..], phi, live, h.pinnedCells, from, dest, rest)
  }

  lemma ReadyPins(g: Geometry, v: View, pins: set<nat>, pinned: seq<(nat, bool)>)
    requires ReclaimReady(g, v, pins, pinned)
    ensures PinsOk(v, pins) && SnapshotOf(v, pins, pinned)
  {
  }

  /** A chunk done with more pages sealed than are still to come. */
  lemma DoneFewer(h: PageHeap, from: Generation, dest: Generation, chunk: seq<nat>, scan: Option<seq<PageDesc>>,
                  v0: View, cards0: seq<bool>, roots0: seq<u64>, roots: seq<u64>, closed: set<nat>, fewer: set<nat>,
                  t: ChunkTrace)
    requires ChunkDone(h, from, dest, chunk, scan, v0, cards0, roots0, roots, closed, t) && fewer <= closed
    requires GeoOk(h.Geo())
    ensures ChunkDone(h, from, dest, chunk, scan, v0, cards0, roots0, roots, fewer, t)
  {
    hide Starts, CopySoFar, ChunkStep, MovableIn, Marks, Phase2Cells, PinsCarded, RootsMoved, Before, GeoOk,
      WellPaired;
    SoFarFewer(h.Geo(), v0, cards0, t.v1, t.cards1, t.f, dest, closed, fewer);
  }

  /** The flipped pages of this chunk are left with pinned objects, and those flipped before are shut. */
  lemma FlippedStep(g: Geometry, v0: View, cards0: seq<bool>, v1: View, cards1: seq<bool>, v2: View, v3: View,
                    f: map<nat, nat>, touched: set<nat>, done: set<nat>, pins: set<nat>, dest: Generation,
                    rest: set<nat>, closed: set<nat>)
    requires GeoOk(g) && ChunkStep(g, v0, v1, v2, v3, f, touched, done, pins, dest) && done <= rest <= closed
    requires CopySoFar(g, v0, cards0, v1, cards1, f, dest, closed) && FlippedOnly(v0, closed - rest, pins)
    ensures FlippedOnly(v3, closed - (rest - done), pins)
  {
    hide ChunkStep, CopyAt, Kept, HeapOk, PartOk, CopiesCarded, TiledKept, Copied, DescsGrown, IsObj;
    forall x: nat | x < |v3.starts| && IsObj(v3, x) && x / PAGE_CELLS in closed - (rest - done) ensures x in pins {
      NoOthers(g, v0, v1, v2, v3, f, touched, done, pins, dest, x);
      ShutOut(g, v0, cards0, v1, cards1, f, dest, closed, x);
      ObjIn(v0, x);
    }
  }

  /** No copy lands on a shut page. */
  lemma ShutOut(g: Geometry, v0: View, cards0: seq<bool>, v1: View, cards1: seq<bool>, f: map<nat, nat>,
                dest: Generation, closed: set<nat>, x: nat)
    requires GeoOk(g) && CopySoFar(g, v0, cards0, v1, cards1, f, dest, closed)
    ensures x in f.Values ==> x / PAGE_CELLS !in closed
  {
    hide CopyAt, Kept, HeapOk, PartOk, CopiesCarded, TiledKept, Copied, DescsGrown;
    if x in f.Values {
      var s :| s in f && f[s] == x;
    }
  }

  lemma ObjIn(v: View, x: nat)
    requires IsObj(v, x)
    ensures x < |v.starts|
  {
  }

  // -- The packing of a chunk is that of the pass's start -------------------

  /** The objects that move from a page still to come are those it was started with. */
  lemma SameMoving(g: Geometry, vs: View, v: View, phi: map<nat, nat>, live: set<nat>, marks: seq<bool>, pins: set<nat>,
                   from: Generation, dest: Generation, rest: set<nat>, p: nat)
    requires Placed(g, vs, v, phi, live, pins, from, dest, rest) && live == LiveSet(vs, from, marks) && p in rest
    requires from != Free
    ensures SamePacking(g, vs, v, live - pins, MoveSet(v, marks, pins), p) && SameUse(vs.descs[p], v.descs[p])
  {
    hide InPlace, RestKept, SameShape;
    forall c: nat | c / PAGE_CELLS == p
      ensures c in live - pins <==> c in MoveSet(v, marks, pins)
      ensures c in live - pins ==>
                c < |vs.starts| && c < |v.starts| && vs.starts[c] == v.starts[c] && SizeOf(g, vs, c) == SizeOf(g, v, c)
    {
      RestObject(g, vs, v, from, rest, c);
      if c in live - pins {
        StillThere(g, vs, v, phi, live, pins, from, dest, rest, c);
      }
    }
    RestDesc(vs, v, from, rest, p);
  }

  lemma RestDesc(vs: View, v: View, from: Generation, rest: set<nat>, p: nat)
    requires |vs.descs| == |v.descs| && |vs.starts| == |v.starts| && RestKept(vs, v, from, rest) && p in rest
    ensures p < |vs.descs| && v.descs[p] == vs.descs[p] && vs.descs[p].generation == from
  {
  }

  lemma StillThere(g: Geometry, vs: View, v: View, phi: map<nat, nat>, live: set<nat>, pins: set<nat>, from: Generation,
                   dest: Generation, rest: set<nat>, c: nat)
    requires Placed(g, vs, v, phi, live, pins, from, dest, rest) && c in live && c / PAGE_CELLS in rest
    ensures SameShape(g, vs, v, c, c) && c < |vs.starts| && c < |v.starts|
    ensures vs.starts[c] == v.starts[c] && SizeOf(g, vs, c) == SizeOf(g, v, c)
  {
    hide SameShape;
    assert InPlace(g, vs, v, pins, from, dest, rest, c, phi[c]);
    RestFrom(vs, v, from, rest, c);
    ShapeFit(g, vs, v, c, phi[c]);
  }

  /** Packing, releasing and skipping, all as at the start of the pass. */
  lemma SameChunk(g: Geometry, vs: View, v: View, phi: map<nat, nat>, live: set<nat>, marks: seq<bool>, pins: set<nat>,
                  from: Generation, dest: Generation, rest: set<nat>, chunk: seq<nat>, scan: Option<seq<PageDesc>>,
                  d: Demand)
    requires Placed(g, vs, v, phi, live, pins, from, dest, rest) && live == LiveSet(vs, from, marks) && from != Free
    requires forall i | 0 <= i < |chunk| :: chunk[i] in rest
    ensures PackChunk(g, v, MoveSet(v, marks, pins), from, chunk, |chunk|, d) == PackChunk(g, vs, live - pins, from,
        chunk, |chunk|, d)
    ensures Unpinned(v.descs, chunk) == Unpinned(vs.descs, chunk)
    ensures ScanSkips(scan, vs, live - pins, from, chunk) ==> ScanSkips(scan, v, MoveSet(v, marks, pins), from, chunk)
  {
    hide Placed, LiveSet, MoveSet, SamePacking, Unpinned, RestKept;
    PlacedRest(g, vs, v, phi, live, pins, from, dest, rest);
    forall j | 0 <= j < |chunk|
      ensures chunk[j] < |vs.descs| && v.descs[chunk[j]] == vs.descs[chunk[j]]
      ensures SamePacking(g, vs, v, live - pins, MoveSet(v, marks, pins), chunk[j])
      ensures SameUse(vs.descs[chunk[j]], v.descs[chunk[j]])
      ensures ConsesMove(vs, live - pins, chunk[j]) ==> ConsesMove(v, MoveSet(v, marks, pins), chunk[j])
    {
      RestDesc(vs, v, from, rest, chunk[j]);
      SameMoving(g, vs, v, phi, live, marks, pins, from, dest, rest, chunk[j]);
      SameConses(g, vs, v, live - pins, MoveSet(v, marks, pins), chunk[j]);
    }
    ChunkSame(g, vs, v, live - pins, MoveSet(v, marks, pins), from, chunk, |chunk|, d);
    UnpinnedSame(vs.descs, v.descs, chunk);
  }

  lemma SameConses(g: Geometry, v: View, w: View, move: set<nat>, move': set<nat>, p: nat)
    requires SamePacking(g, v, w, move, move', p)
    ensures ConsesMove(v, move, p) ==> ConsesMove(w, move', p)
  {
  }

  // -- What the chunk moves, and what the card scan makes of it ---------------

  lemma MovesHere(g: Geometry, vs: View, v: View, phi: map<nat, nat>, live: set<nat>, marks: seq<bool>, pins: set<nat>,
                  from: Generation, dest: Generation, rest: set<nat>, chunk: seq<nat>, s: nat)
    requires Placed(g, vs, v, phi, live, pins, from, dest, rest) && live == LiveSet(vs, from, marks) && from != Free
    requires NoLarge(v)
    requires s in live - pins && s / PAGE_CELLS in rest && s / PAGE_CELLS in chunk
    ensures s in MovableIn(v, marks, pins, from, chunk) && s < |v.starts| && s < |vs.starts|
    ensures v.starts[s] == vs.starts[s]
  {
    hide Placed, SamePacking;
    SameMoving(g, vs, v, phi, live, marks, pins, from, dest, rest, s / PAGE_CELLS);
    StillThere(g, vs, v, phi, live, pins, from, dest, rest, s);
    assert s in MoveSet(v, marks, pins) by { PackedAlike(g, vs, v, live - pins, MoveSet(v, marks, pins), s); }
    PlacedRest(g, vs, v, phi, live, pins, from, dest, rest);
    RestDesc(vs, v, from, rest, s / PAGE_CELLS);
    assert MovableFrom(v, marks, pins, from, chunk, s);
  }

  lemma PackedAlike(g: Geometry, v: View, w: View, move: set<nat>, move': set<nat>, c: nat)
    requires SamePacking(g, v, w, move, move', c / PAGE_CELLS) && c in move
    ensures c in move'
  {
  }

  /** Just what the packing put somewhere moved off the pages of the chunk. */
  lemma PutHere(g: Geometry, vs: View, v: View, phi: map<nat, nat>, live: set<nat>, marks: seq<bool>, pins: set<nat>,
                from: Generation, dest: Generation, rest: set<nat>, chunk: seq<nat>, d0: Demand, s: nat)
    requires Placed(g, vs, v, phi, live, pins, from, dest, rest) && live == LiveSet(vs, from, marks) && from != Free
    requires NoLarge(v) && (forall i | 0 <= i < |chunk| :: chunk[i] in rest)
    requires s in PackChunk(g, vs, live - pins, from, chunk, |chunk|, d0).at && s / PAGE_CELLS in Before(chunk, |chunk|)
    requires forall x | x in d0.at :: x / PAGE_CELLS !in rest
    ensures s in MovableIn(v, marks, pins, from, chunk)
  {
    hide Placed, LiveSet, MovableIn, NoLarge, PackChunk;
    assert chunk[..|chunk|] == chunk && s / PAGE_CELLS in rest;
    ChunkPuts(g, vs, live - pins, from, chunk, |chunk|, d0, s);
    MovesHere(g, vs, v, phi, live, marks, pins, from, dest, rest, chunk, s);
  }

  /** What becomes of the objects of the chunk, and how its card scan ends. */
  ghost predicate AsPacked(g: Geometry, vs: View, cardsS: seq<bool>, live: set<nat>, pins: set<nat>, from: Generation,
                           scan: Option<seq<PageDesc>>, at: map<nat, nat>, done: set<nat>, legible: bool)
    requires GeoOk(g) && Shaped(g, vs)
  {
    PlainHeaders(g, vs) ==> (legible <==> !Garbled(g, vs, cardsS, scan, from, at, done))
  }

  lemma PackedScan(h: PageHeap, vs: View, cardsS: seq<bool>, v0: View, cards0: seq<bool>, phi: map<nat, nat>,
                   live: set<nat>, from: Generation, dest: Generation, rest: set<nat>, closed: set<nat>,
                   chunk: seq<nat>, scan: Option<seq<PageDesc>>, d0: Demand, d: Demand, t: ChunkTrace)
    requires PassState(h.Geo(), vs, cardsS, v0, cards0, phi, live, h.pinnedCells, from, dest, rest) && from != Free
    requires PhaseOne(h, from, dest, chunk, v0, cards0, closed, t) && NoLarge(v0) && rest <= closed
    requires live == LiveSet(vs, from, h.markTable.Map()) && forall i | 0 <= i < |chunk| :: chunk[i] in rest
    requires Shaped(h.Geo(), vs) && Shaped(h.Geo(), v0) && RestLayouts(h.Geo(), vs, v0, rest)
    requires |cards0| == CARDS_PER_PAGE * h.Geo().nPages
    requires d == PackChunk(h.Geo(), vs, live - h.pinnedCells, from, chunk, |chunk|, d0) && Put(t.f, d)
    requires forall x | x in d0.at :: x / PAGE_CELLS !in rest
    ensures AsPacked(h.Geo(), vs, cardsS, live, h.pinnedCells, from, scan, d.at, Before(chunk, |chunk|),
                     ScanLegible(h.Geo(), t.v1, t.cards1, scan, from))
  {
    hide Starts, HeapOk, Placed, TiledSoFar, Emptied, CopySoFar, Marks, LiveSet, IsObj, GeoOk, WellPaired, RestLayouts,
      FwdMap, ScanLegible, OnlyIntoDest, NoLarge, PlainHeaders, Garbled, CardedSoFar, MovableIn, PackChunk, Before,
      PassState;
    var g, pins, done := h.Geo(), h.pinnedCells, Before(chunk, |chunk|);
    StateHeapOk(g, vs, cardsS, v0, cards0, phi, live, pins, from, dest, rest);
    BeforeIn(chunk, rest);
    forall s | s in t.f ensures s / PAGE_CELLS in done && s in d.at && d.at[s] == t.f[s] {
      assert s in t.f.Keys;
      MovedFrom(v0, h.markTable.Map(), pins, from, chunk, s);
    }
    forall s: nat | s in d.at && s / PAGE_CELLS in done ensures s in t.f {
      PutHere(g, vs, v0, phi, live, h.markTable.Map(), pins, from, dest, rest, chunk, d0, s);
      assert s in t.f.Keys;
    }
    if PlainHeaders(g, vs) {
      ChunkVerdict(g, vs, cardsS, v0, cards0, phi, live, pins, from, dest, rest, closed, done, scan, t.v1, t.cards1,
        t.f, d.at);
    }
  }

  lemma MovedFrom(v: View, marks: seq<bool>, pins: set<nat>, from: Generation, chunk: seq<nat>, s: nat)
    requires s in MovableIn(v, marks, pins, from, chunk)
    ensures s / PAGE_CELLS in Before(chunk, |chunk|)
  {
    assert chunk[..|chunk|] == chunk && MovableFrom(v, marks, pins, from, chunk, s);
  }

  /** The objects of the chunk are where the packing put them. */
  ghost predicate PutBy(phi: map<nat, nat>, at: map<nat, nat>, move: set<nat>, pages: set<nat>) {
    forall s | s in move && s / PAGE_CELLS in pages :: s in phi && s in at && phi[s] == at[s]
  }

  lemma PackedPlaces(h: PageHeap, vs: View, v0: View, cards0: seq<bool>, phi: map<nat, nat>, live: set<nat>,
                     from: Generation, dest: Generation, rest: set<nat>, closed: set<nat>, chunk: seq<nat>, d: Demand,
                     t: ChunkTrace)
    requires Placed(h.Geo(), vs, v0, phi, live, h.pinnedCells, from, dest, rest) && from != Free && NoLarge(v0)
    requires PhaseOne(h, from, dest, chunk, v0, cards0, closed, t)
    requires live == LiveSet(vs, from, h.markTable.Map()) && forall i | 0 <= i < |chunk| :: chunk[i] in rest
    requires Put(t.f, d)
    ensures PutBy(Onward(phi, t.f), d.at, live - h.pinnedCells, Before(chunk, |chunk|))
  {
    hide Starts, Placed, CopySoFar, Marks, LiveSet, GeoOk, WellPaired, FwdMap, NoLarge, MovableIn, Onward;
    var g, pins := h.Geo(), h.pinnedCells;
    assert chunk[..|chunk|] == chunk;
    forall s | s in live - pins && s / PAGE_CELLS in Before(chunk, |chunk|)
      ensures s in Onward(phi, t.f) && s in d.at && Onward(phi, t.f)[s] == d.at[s]
    {
      MovesHere(g, vs, v0, phi, live, h.markTable.Map(), pins, from, dest, rest, chunk, s);
      assert s in t.f.Keys;
      StayedPut(g, vs, v0, phi, live, pins, from, dest, rest, s);
    }
  }

  /** What was moved before stays where it is. */
  ghost predicate Unmoved(phi: map<nat, nat>, phi': map<nat, nat>, rest: set<nat>) {
    forall s | s in phi && s / PAGE_CELLS !in rest :: s in phi' && phi'[s] == phi[s]
  }

  lemma OthersUnmoved(h: PageHeap, vs: View, v0: View, cards0: seq<bool>, phi: map<nat, nat>, live: set<nat>,
                      from: Generation, dest: Generation, rest: set<nat>, closed: set<nat>, chunk: seq<nat>,
                      t: ChunkTrace)
    requires Placed(h.Geo(), vs, v0, phi, live, h.pinnedCells, from, dest, rest)
    requires PhaseOne(h, from, dest, chunk, v0, cards0, closed, t) && forall i | 0 <= i < |chunk| :: chunk[i] in rest
    ensures Unmoved(phi, Onward(phi, t.f), rest)
  {
    hide Starts, CopySoFar, Marks, GeoOk, WellPaired, FwdMap, MovableIn, Onward, SameShape, RestKept;
    BeforeIn(chunk, rest);
    forall s | s in phi && s / PAGE_CELLS !in rest ensures phi[s] !in t.f {
      assert InPlace(h.Geo(), vs, v0, h.pinnedCells, from, dest, rest, s, phi[s]);
      if phi[s] in t.f {
        assert phi[s] in t.f.Keys;
        MovedFrom(v0, h.markTable.Map(), h.pinnedCells, from, chunk, phi[s]);
      }
    }
  }

  lemma StayedPut(g: Geometry, vs: View, v: View, phi: map<nat, nat>, live: set<nat>, pins: set<nat>,
                  from: Generation, dest: Generation, rest: set<nat>, s: nat)
    requires Placed(g, vs, v, phi, live, pins, from, dest, rest) && s in live && s / PAGE_CELLS in rest
    ensures s in phi && phi[s] == s
  {
    hide SameShape;
    assert InPlace(g, vs, v, pins, from, dest, rest, s, phi[s]);
    RestFrom(vs, v, from, rest, s);
  }

  // -- The turn -------------------------------------------------------------

  /** One turn of the chunk loop. */
  method PassChunk(h: PageHeap, from: Generation, dest: Generation, chunk: seq<nat>, roots: array<u64>,
                   scan: Option<seq<PageDesc>>, pinned: seq<(nat, bool)>, ghost vs: View, ghost cardsS: seq<bool>,
                   ghost rootsS: seq<u64>, ghost phi0: map<nat, nat>, ghost live: set<nat>, ghost rest: set<nat>,
                   ghost closed: set<nat>, ghost d0: Demand, ghost ready: bool, ghost hidden: bool,
                   ghost straight: bool)
    returns (outcome: Outcome, freed: nat, flipped: nat, ghost phi: map<nat, nat>, ghost d: Demand)
    requires Passing(h, vs, cardsS, phi0, live, from, dest, rest, closed, pinned) && RootsApart(h, roots)
    requires HasRegion(from, Cons) && HasRegion(dest, Cons) && live == LiveSet(vs, from, h.markTable.Map())
    requires forall s | s in h.pinnedCells :: s in live
    requires (forall i | 0 <= i < |chunk| :: chunk[i] in rest)
    requires (forall i, j | 0 <= i < j < |chunk| :: chunk[i] != chunk[j])
    requires scan.Some? ==> |scan.value| == h.nPages
    requires DemandSoFar(h.descs, h.V(), h.regions, h.freeList, dest, d0) && Fresh(d0)
    requires forall s | s in d0.at :: s / PAGE_CELLS !in rest
    requires GeoOk(h.Geo()) && Shaped(h.Geo(), vs) && InRange(h.Geo(), phi0)
    requires ready ==>
               GraphReady(h.Geo(), vs, cardsS, scan, rootsS, h.pinnedCells, from) && ClosedHeap(h.Geo(), vs, live)
    requires hidden ==> AllUnseen(scan, from, rest)
    requires KeptUp(h.Geo(), vs, h.V(), phi0, live, h.pinnedCells, from, dest, rest,
                    CardRoots(h.Geo(), vs, cardsS, scan, from), rootsS, roots[..], ready, hidden, straight)
    modifies h`descs, h`regions, h`bytesAlloc, h`committed, h`freeList, h`highWater, h.cells, h.startTable.bits,
      h.cards, roots
    ensures h.Valid()
    ensures outcome.Done? ==> Passing(h, vs, cardsS, phi, live, from, dest, rest - Before(chunk, |chunk|),
                                      closed - Members(Unpinned(vs.descs, chunk)), pinned)
    ensures outcome.Done? ==> freed == |Unpinned(vs.descs, chunk)| && freed + flipped == |chunk|
    ensures d == PackChunk(h.Geo(), vs, live - h.pinnedCells, from, chunk, |chunk|, d0)
    ensures outcome.Done? ==>
              DemandSoFar(h.descs, h.V(), h.regions, h.freeList, dest, d.Next(Unpinned(vs.descs, chunk)))
    ensures outcome.Done? ==> PutBy(phi, d.at, live - h.pinnedCells, Before(chunk, |chunk|)) && Unmoved(phi0, phi, rest)
    ensures outcome.Done? ==>
              CountGen(h.descs, Free) == CountGen(old(h.descs), Free) - d.Pages() + |Unpinned(vs.descs, chunk)|
    ensures !outcome.Exhausted? ==>
              d.Pages() <= PagesAsked(old(h.V()), chunk) && d.Pages() <= CountGen(old(h.descs), Free)
    ensures outcome.Exhausted? ==> Blocked(h, dest) || (d.Pages() > CountGen(old(h.descs), Free)
                                                        && CountGen(old(h.descs), Free) < PagesAsked(old(h.V()), chunk))
    ensures outcome.Done? ==> InRange(h.Geo(), phi)
    ensures outcome.Done? ==>
              KeptUp(h.Geo(), vs, h.V(), phi, live, h.pinnedCells, from, dest, rest - Before(chunk, |chunk|),
                     CardRoots(h.Geo(), vs, cardsS, scan, from), rootsS, roots[..], ready, hidden,
                     straight && NoBack(h.Geo(), vs, live, h.pinnedCells, Before(chunk, |chunk|),
                                        rest - Before(chunk, |chunk|)))
    ensures outcome.Done? && NoPinBytes(old(h.V())) ==> NoPinBytes(h.V())
    ensures outcome.Misread? ==> !ScanSkips(scan, vs, live - h.pinnedCells, from, chunk)
    ensures !outcome.Exhausted? ==> AsPacked(h.Geo(), vs, cardsS, live, h.pinnedCells, from, scan, d.at,
                                             Before(chunk, |chunk|), outcome.Done?)
  {
    hide Starts, GeoOk, Lawful, MemoryOk, PagesOk, RegionsOk, HeapOk, Sealed, PinsOk, SnapshotOf, NoLarge, Marks,
      ReclaimReady, ScanSkips, PassState, ChunkDone, WellPaired, Before, LiveSet, GraphReady, ClosedHeap, Survives,
      PagesTidy, MoveSet, NoPinBytes, CountGen, PagesAsked, Blocked, Placed, RestKept, KeptUp, FlippedOnly, AllUnseen,
      ScanLegible, AsPacked, PhaseOne, DemandSoFar, PackChunk, Unpinned, Emptied, CardsClean, NoBack, Put, PutBy,
      Unmoved, CardRoots;
    ghost var g, v0, cards0, roots0, marks := h.Geo(), h.V(), h.cards[..], roots[..], h.markTable.Map();
    phi := phi0;
    StateHeapOk(g, vs, cardsS, v0, cards0, phi0, live, h.pinnedCells, from, dest, rest);
    SameChunk(g, vs, v0, phi0, live, marks, h.pinnedCells, from, dest, rest, chunk, scan, d0);
    ghost var t: ChunkTrace;
    outcome, freed, flipped, t, d := EvacuateChunk(h, from, dest, chunk, roots, scan, pinned, d0, closed);
    if outcome.Exhausted? { return; }
    KeptUpRest(g, vs, v0, phi0, live, h.pinnedCells, from, dest, rest, CardRoots(g, vs, cardsS, scan, from), rootsS,
      roots0, ready, hidden, straight);
    PackedScan(h, vs, cardsS, v0, cards0, phi0, live, from, dest, rest, closed, chunk, scan, d0, d, t);
    if outcome.Misread? {
      MisreadSkips(h, v0, cards0, from, dest, chunk, scan, closed, t);
      return;
    }
    ReadyPins(g, h.V(), h.pinnedCells, pinned);
    DoneFewer(h, from, dest, chunk, scan, v0, cards0, roots0, roots[..], closed, rest, t);
    StateStep(h, vs, cardsS, v0, cards0, roots0, roots[..], phi0, live, marks, from, dest, rest, chunk, scan, t);
    phi := Onward(phi0, t.f);
    FollowStep(h, vs, cardsS, v0, cards0, rootsS, roots0, roots[..], phi0, live, marks, from, dest, rest, chunk, scan,
      t, ready, hidden, straight);
    NoPinsStep(h, from, dest, chunk, scan, v0, cards0, roots0, roots[..], rest, t);
    FlippedNext(h, vs, from, dest, chunk, scan, v0, cards0, roots0, roots[..], rest, closed, t);
    OthersUnmoved(h, vs, v0, cards0, phi0, live, from, dest, rest, closed, chunk, t);
    PackedPlaces(h, vs, v0, cards0, phi0, live, from, dest, rest, closed, chunk, d, t);
  }

  lemma KeptUpRest(g: Geometry, vs: View, v: View, phi: map<nat, nat>, live: set<nat>, pins: set<nat>,
                   from: Generation, dest: Generation, rest: set<nat>, visited: set<nat>, rootsS: seq<u64>,
                   roots: seq<u64>, ready: bool, hidden: bool, straight: bool)
    requires GeoOk(g) && Shaped(g, vs) && Shaped(g, v) && InRange(g, phi)
    requires KeptUp(g, vs, v, phi, live, pins, from, dest, rest, visited, rootsS, roots, ready, hidden, straight)
    ensures RestLayouts(g, vs, v, rest)
  {
    hide RestLayouts, FieldsTracked, CardsTracked, RootsTracked, GraphKept, RestWords, Broken;
  }

  lemma MisreadSkips(h: PageHeap, v0: View, cards0: seq<bool>, from: Generation, dest: Generation, chunk: seq<nat>,
                     scan: Option<seq<PageDesc>>, closed: set<nat>, t: ChunkTrace)
    requires PhaseOne(h, from, dest, chunk, v0, cards0, closed, t) && !ScanLegible(h.Geo(), t.v1, t.cards1, scan, from)
    ensures !ScanSkips(scan, v0, MoveSet(v0, h.markTable.Map(), h.pinnedCells), from, chunk)
  {
    hide Starts, Copied, FwdMap, PartOk, HeapOk, MovableIn, MoveSet, ScanSkips, ScanLegible, Marks, CopiesCarded,
      TiledKept, GeoOk;
    if ScanSkips(scan, v0, MoveSet(v0, h.markTable.Map(), h.pinnedCells), from, chunk) {
      SkipsLegible(h.Geo(), v0, t.v1, t.cards1, t.f, dest, h.markTable.Map(), h.pinnedCells, from, chunk, scan);
    }
  }

  lemma NoPinsStep(h: PageHeap, from: Generation, dest: Generation, chunk: seq<nat>, scan: Option<seq<PageDesc>>,
                   v0: View, cards0: seq<bool>, roots0: seq<u64>, roots: seq<u64>, rest: set<nat>, t: ChunkTrace)
    requires ChunkDone(h, from, dest, chunk, scan, v0, cards0, roots0, roots, rest, t) && GeoOk(h.Geo()) && from != Free
    ensures NoPinBytes(v0) ==> NoPinBytes(h.V())
  {
    hide Starts, CopySoFar, ChunkStep, MovableIn, Marks, Phase2Cells, PinsCarded, RootsMoved, Before, GeoOk,
      WellPaired, NoPinBytes;
    EmptiedStep(h.Geo(), v0, cards0, t.v1, t.cards1, t.v2, h.V(), t.f, Phase2Cells(h.Geo(), t.v1, t.cards1, scan, from,
      dest, h.pinnedCells), from, dest, rest, Before(chunk, |chunk|), h.pinnedCells);
  }

  /** What is shut after the chunk: the pages to come, and the flipped ones with pinned objects only. */
  lemma FlippedNext(h: PageHeap, vs: View, from: Generation, dest: Generation, chunk: seq<nat>,
                    scan: Option<seq<PageDesc>>, v0: View, cards0: seq<bool>, roots0: seq<u64>, roots: seq<u64>,
                    rest: set<nat>, closed: set<nat>, t: ChunkTrace)
    requires ChunkDone(h, from, dest, chunk, scan, v0, cards0, roots0, roots, closed, t) && GeoOk(h.Geo())
    requires rest <= closed && FlippedOnly(v0, closed - rest, h.pinnedCells)
    requires forall i | 0 <= i < |chunk| :: chunk[i] in rest
    ensures var shut := closed - Members(Unpinned(vs.descs, chunk));
      && rest - Before(chunk, |chunk|) <= shut
            && FlippedOnly(h.V(), shut - (rest - Before(chunk, |chunk|)), h.pinnedCells)
  {
    hide Starts, CopySoFar, ChunkStep, MovableIn, Marks, Phase2Cells, PinsCarded, RootsMoved, GeoOk, WellPaired,
      FlippedOnly;
    assert chunk[..|chunk|] == chunk;
    var done, shut := Before(chunk, |chunk|), closed - Members(Unpinned(vs.descs, chunk));
    FlippedStep(h.Geo(), v0, cards0, t.v1, t.cards1, t.v2, h.V(), t.f, Phase2Cells(h.Geo(), t.v1, t.cards1, scan, from,
      dest, h.pinnedCells), done, h.pinnedCells, dest, rest, closed);
    FlippedFewer(h.V(), closed - (rest - done), shut - (rest - done), h.pinnedCells);
  }

  lemma FlippedFewer(v: View, flipped: set<nat>, fewer: set<nat>, pins: set<nat>)
    requires FlippedOnly(v, flipped, pins) && fewer <= flipped
    ensures FlippedOnly(v, fewer, pins)
  {
  }
}
