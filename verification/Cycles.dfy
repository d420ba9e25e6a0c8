/** Whole collections: minor with its cascade, major and full. */
module Cycles {
  import opened Bits
  import opened Options
  import opened Bitmaps
  import opened Pages
  import opened Objects
  import opened PageHeaps
  import opened Demands
  import opened Marking
  import opened Cards
  import opened Moves
  import opened Copying
  import opened Reclaiming
  import opened EvacMarking
  import opened Graphs
  import opened Placement
  import opened Passes
  import opened PassGraph
  import opened PassSteps
  import opened PassStates
  import opened Following
  import opened PassChunks
  import opened Plans
  import opened PassResults
  import opened Evacuation
  import opened RootReach
  import opened OldFields
  import opened Remembered
  import opened Reachability
  import opened Misreads
  import opened Foresight

  // -- The heap between collections -----------------------------------------

  /** A collection may start. */
  ghost predicate CycleReady(h: PageHeap)
    reads h, h.cells, h.startTable.bits, h.cards
  {
    PassReady(h, G0) && h.liveTarget == None
  }

  /** A precise heap without pins or gaps: words lead to objects, and every
      cross-generation pointer lies on a dirty card. */
  ghost predicate GoodHeap(g: Geometry, v: View, cards: seq<bool>, roots: seq<u64>) {
    && HeapOk(g, v) && GapFree(g, v) && NoPinBytes(v)
    && ClosedHeap(g, v, AllObjs(v)) && CardsCover(g, v, cards)
    && forall i | 0 <= i < |roots| :: ValidField(g, v, AllObjs(v), roots[i])
  }

  lemma GoodIsReady(g: Geometry, v: View, cards: seq<bool>, roots: seq<u64>, snapshot: seq<PageDesc>, from: Generation)
    requires GoodHeap(g, v, cards, roots) && SeesAll(snapshot, v.descs, from)
    ensures GraphReady(g, v, cards, Some(snapshot), roots, {}, from)
  {
    hide GapFree, ClosedHeap, CardsCover, ValidField, OutsideCovered, CardRoots, ObjOk;
    CardsFind(g, v, cards, snapshot, from, {});
  }

  /** With all objects in the source generation no card scan is needed. */
  lemma AloneIsReady(g: Geometry, v: View, cards: seq<bool>, roots: seq<u64>, from: Generation)
    requires GoodHeap(g, v, cards, roots) && forall s | s in AllObjs(v) :: GenAt(v, s) == from
    ensures GraphReady(g, v, cards, None, roots, {}, from)
  {
    hide GapFree, ClosedHeap, CardsCover, ValidField, ObjCovered, NoPinBytes, ObjOk;
    forall s: nat | s < |v.starts| && IsObj(v, s) ensures GenAt(v, s) == from {
      assert s in AllObjs(v);
    }
  }

  /** An isomorphism from within a valid heap carries validity over. */
  lemma ValidAfter(g: Geometry, v: View, w: View, phi: map<nat, nat>, roots0: seq<u64>, roots: seq<u64>)
    requires GraphKept(g, v, w, phi, roots0, roots) && phi.Values == AllObjs(w) && phi.Keys <= AllObjs(v)
    requires ClosedHeap(g, v, AllObjs(v)) && forall i | 0 <= i < |roots0| :: ValidField(g, v, AllObjs(v), roots0[i])
    ensures ClosedHeap(g, w, AllObjs(w)) && forall i | 0 <= i < |roots| :: ValidField(g, w, AllObjs(w), roots[i])
  {
    hide WordImage, SameShape, IsPtrOff, SizeOf, ValidField;
    forall s | s in phi
      ensures IsObj(v, s) && s + SizeOf(g, v, s) <= |v.cells|
      ensures forall i: nat | i < SizeOf(g, v, s) && IsPtrOff(g, v, s, i) :: ValidField(g, v, phi.Keys, Field(v, s, i))
    {
      assert s in AllObjs(v) && ObjImage(g, v, w, phi, s);
      ShapeFit(g, v, w, s, phi[s]);
      forall i: nat | i < SizeOf(g, v, s) && IsPtrOff(g, v, s, i) ensures ValidField(g, v, phi.Keys, Field(v, s, i)) {
        assert FieldImage(g, phi, true, Field(v, s, i), Field(w, phi[s], i));
        ValidInDomain(g, v, phi, Field(v, s, i), Field(w, phi[s], i));
      }
    }
    ClosedImage(g, v, w, phi);
    forall i | 0 <= i < |roots| ensures ValidField(g, w, AllObjs(w), roots[i]) {
      assert WordImage(g, phi, roots0[i], roots[i]);
      ValidInDomain(g, v, phi, roots0[i], roots[i]);
      ValidImage(g, v, w, phi, roots0[i], roots[i]);
    }
  }

  lemma ValidInDomain(g: Geometry, v: View, phi: map<nat, nat>, word: u64, word': u64)
    requires GeoOk(g) && InRange(g, phi) && WordImage(g, phi, word, word') && ValidField(g, v, AllObjs(v), word)
    ensures ValidField(g, v, phi.Keys, word)
  {
  }

  /** A pass that preserves the graph of a good heap leaves a good heap. */
  lemma GoodAfterPass(h: PageHeap, from: Generation, dest: Generation, v: View, cards0: seq<bool>, phi: map<nat, nat>,
                      live: set<nat>, roots0: seq<u64>, roots: seq<u64>)
    requires PassDone(h, from, dest, v, cards0, phi, live) && h.pinnedCells == {}
    requires GoodHeap(h.Geo(), v, cards0, roots0) && GraphKept(h.Geo(), v, h.V(), phi, roots0, roots)
    ensures GoodHeap(h.Geo(), h.V(), h.cards[..], roots)
  {
    hide Starts, GeoOk, MemoryOk, PagesOk, RegionsOk, HeapOk, GapFree, ClosedHeap, CardsCover, ValidField, PassResult,
      CardedSoFar, NoPinBytes, Iso, RootsImage, PinsOk, NoLarge, WellPaired, PagesTiled;
    var g := h.Geo();
    ResultShapes(g, v, h.V(), phi, live, h.pinnedCells, from, dest);
    ResultObjects(g, v, h.V(), phi, live, h.pinnedCells, from, dest);
    ValidAfter(g, v, h.V(), phi, roots0, roots);
    PassKeepsCover(g, v, h.V(), phi, live, h.pinnedCells, from, dest, cards0, h.cards[..]);
    GapsKept(g, v, h.V(), from);
  }

  lemma DoneReady(h: PageHeap, from: Generation, dest: Generation, v: View, cards0: seq<bool>, phi: map<nat, nat>,
                  live: set<nat>, target: Generation)
    requires PassDone(h, from, dest, v, cards0, phi, live) && target != Free
    ensures PassReady(h, target) && h.liveTarget == None
    ensures PassResult(h.Geo(), v, h.V(), phi, live, h.pinnedCells, from, dest)
    ensures phi.Keys == live && PagesTiled(h.Geo(), v, h.V(), h.pinnedCells, from)
    ensures CardedSoFar(h.Geo(), v, phi, from, {}, cards0, h.cards[..])
    ensures NoPinBytes(v) && h.pinnedCells == {} ==> NoPinBytes(h.V())
  {
    hide Starts, GeoOk, MemoryOk, PagesOk, RegionsOk, HeapOk, PagesTiled, PassResult, CardedSoFar, NoPinBytes, PinsOk,
      NoLarge, WellPaired;
      ResultShapes(h.Geo(), v, h.V(), phi, live, h.pinnedCells, from, dest);
  }

  // -- What a collection did ------------------------------------------------

  /** From `v` to `w` the objects in the domain of `phi` moved to their images, pinned
      ones not at all, and nothing else is left. */
  ghost predicate Relocated(g: Geometry, v: View, w: View, phi: map<nat, nat>, pins: set<nat>) {
    && Shaped(g, v) && Shaped(g, w) && InRange(g, phi) && Injective(phi) && phi.Values == AllObjs(w)
    && (forall s | s in phi :: SameShape(g, v, w, s, phi[s]) && (s in pins ==> phi[s] == s))
    && (forall s | s in pins :: s in phi)
  }

  lemma RelocatedShapes(g: Geometry, v: View, w: View, phi: map<nat, nat>, pins: set<nat>)
    requires Relocated(g, v, w, phi, pins)
    ensures Shaped(g, v) && Shaped(g, w) && InRange(g, phi) && phi.Values == AllObjs(w)
  {
    hide SameShape;
  }

  lemma RelocatedByPass(g: Geometry, v: View, w: View, phi: map<nat, nat>, live: set<nat>, pins: set<nat>,
                        from: Generation, dest: Generation, kept: set<nat>)
    requires PassResult(g, v, w, phi, live, pins, from, dest) && kept <= pins && kept <= live
    ensures Relocated(g, v, w, phi, kept)
  {
    hide SameShape;
    ResultObjects(g, v, w, phi, live, pins, from, dest);
    forall s | s in phi ensures SameShape(g, v, w, s, phi[s]) && (s in kept ==> phi[s] == s) {
      assert InPlace(g, v, w, pins, from, dest, {}, s, phi[s]);
    }
  }

  lemma RelocatedCompose(g: Geometry, v: View, u: View, w: View, phi: map<nat, nat>, psi: map<nat, nat>, pins: set<nat>)
    requires Relocated(g, v, u, phi, pins) && Relocated(g, u, w, psi, pins) && psi.Keys <= phi.Values
    ensures Relocated(g, v, w, Compose(phi, psi), pins)
  {
    hide SameShape;
    var r := Compose(phi, psi);
    ComposeFacts(g, phi, psi);
    forall s | s in r ensures SameShape(g, v, w, s, r[s]) && (s in pins ==> r[s] == s) {
      ShapeTrans(g, v, u, w, s, phi[s], psi[phi[s]]);
    }
  }

  /** The fields of pinned objects follow through two passes as through one. */
  lemma FollowCompose(g: Geometry, v: View, u: View, w: View, phi: map<nat, nat>, psi: map<nat, nat>, pins: set<nat>)
    requires GeoOk(g) && Relocated(g, v, u, phi, pins) && InRange(g, psi) && InRange(g, Compose(phi, psi))
    requires PinsFollow(g, v, u, phi, pins) && PinsFollow(g, u, w, psi, pins)
    ensures PinsFollow(g, v, w, Compose(phi, psi), pins)
  {
    hide WordImage, SameShape, SizeOf, IsPtrOff, Followed;
    forall s: nat, i: nat | FieldOf(g, v, pins, s, i)
      ensures s + i < |w.cells| && Followed(g, Compose(phi, psi), Field(v, s, i), Field(w, s, i))
      ensures Aims(g, v, Field(v, s, i)) ==> CellOf(g, Field(v, s, i)) in Compose(phi, psi)
    {
      ShapeOffsets(g, v, u, s, s, i);
      assert FieldOf(g, u, pins, s, i);
      FollowedOn(g, v, u, w, phi, psi, pins, Field(v, s, i), Field(u, s, i), Field(w, s, i));
    }
  }

  lemma FollowedOn(g: Geometry, v: View, u: View, w: View, phi: map<nat, nat>, psi: map<nat, nat>, pins: set<nat>,
                   w0: u64, w1: u64, w2: u64)
    requires GeoOk(g) && Relocated(g, v, u, phi, pins) && InRange(g, psi) && InRange(g, Compose(phi, psi))
    requires Followed(g, phi, w0, w1) && Followed(g, psi, w1, w2)
    requires (Aims(g, v, w0) ==> CellOf(g, w0) in phi) && (Aims(g, u, w1) ==> CellOf(g, w1) in psi)
    ensures Followed(g, Compose(phi, psi), w0, w2) && (Aims(g, v, w0) ==> CellOf(g, w0) in Compose(phi, psi))
  {
    if InHeap(g, w0) && CellOf(g, w0) in phi {
      var c := CellOf(g, w0);
      ImageTarget(g, phi, w0, w1);
      if phi[c] in psi { WordCompose(g, phi, psi, w0, w1, w2); }
      assert SameShape(g, v, u, c, phi[c]);
      AimLaw(g, w0, phi[c]);
    }
  }

  lemma FollowStart(g: Geometry, v: View, pins: set<nat>)
    requires GeoOk(g) && Shaped(g, v) && InRange(g, Staying(AllObjs(v)))
    ensures PinsFollow(g, v, v, Staying(AllObjs(v)), pins)
  {
  }

  lemma FollowInto(g: Geometry, v: View, u: View, w: View, phi: map<nat, nat>, pins: set<nat>)
    requires GeoOk(g) && InRange(g, phi) && PinsFollow(g, v, u, phi, pins) && w.cells == u.cells
    ensures PinsFollow(g, v, w, phi, pins)
  {
    hide FieldOf, Followed, Aims;
    forall s: nat, i: nat | FieldOf(g, v, pins, s, i)
      ensures s + i < |v.cells| && s + i < |w.cells| && Followed(g, phi, Field(v, s, i), Field(w, s, i))
      ensures Aims(g, v, Field(v, s, i)) ==> InHeap(g, Field(v, s, i)) && CellOf(g, Field(v, s, i)) in phi
    {
      FieldOfFits(g, v, pins, s, i);
      assert Field(w, s, i) == Field(u, s, i);
    }
  }

  lemma FieldOfFits(g: Geometry, v: View, pins: set<nat>, s: nat, i: nat)
    requires FieldOf(g, v, pins, s, i)
    ensures s + i < |v.cells| && (Aims(g, v, Field(v, s, i)) ==> InHeap(g, Field(v, s, i)))
  {
  }

  lemma GensByPass(g: Geometry, v: View, w: View, phi: map<nat, nat>, live: set<nat>, pins: set<nat>, from: Generation,
                   dest: Generation)
    requires PassResult(g, v, w, phi, live, pins, from, dest)
    ensures GensBy(v, w, phi, PassGen(from, dest))
  {
    hide SameShape;
    forall s | s in phi
      ensures s / PAGE_CELLS < |v.descs| && phi[s] / PAGE_CELLS < |w.descs|
      ensures GenAt(w, phi[s]) == PassGen(from, dest)(GenAt(v, s))
    {
      assert InPlace(g, v, w, pins, from, dest, {}, s, phi[s]);
      ShapeFit(g, v, w, s, phi[s]);
    }
  }

  lemma GensCompose(v: View, u: View, w: View, phi: map<nat, nat>, psi: map<nat, nat>, a: Generation -> Generation,
                    b: Generation -> Generation, c: Generation -> Generation)
    requires GensBy(v, u, phi, a) && GensBy(u, w, psi, b) && forall gen: Generation :: c(gen) == b(a(gen))
    ensures GensBy(v, w, Compose(phi, psi), c)
  {
  }

  lemma KeptCompose(g: Geometry, v: View, u: View, w: View, phi: map<nat, nat>, psi: map<nat, nat>,
                    r0: seq<u64>, r1: seq<u64>, r2: seq<u64>)
    requires GraphKept(g, v, u, phi, r0, r1) && GraphKept(g, u, w, psi, r1, r2)
    ensures GraphKept(g, v, w, Compose(phi, psi), r0, r2)
  {
    hide ObjImage, WordImage;
    IsoCompose(g, v, u, w, phi, psi);
    RootsCompose(g, phi, psi, r0, r1, r2);
  }

  lemma KeysInValues(g: Geometry, v: View, u: View, w: View, phi: map<nat, nat>, psi: map<nat, nat>, pins: set<nat>,
                     pins': set<nat>)
    requires Relocated(g, v, u, phi, pins) && Relocated(g, u, w, psi, pins')
    ensures psi.Keys <= phi.Values
  {
    hide SameShape;
    forall s | s in psi ensures s in phi.Values {
      ShapeFit(g, u, w, s, psi[s]);
      assert s in AllObjs(u);
    }
  }

  // -- The end of every collection ------------------------------------------

  /** `clear_all_pins`. */
  method ClearAllPins(h: PageHeap)
    requires h.Inv()
    modifies h`descs, h`pinnedCells
    ensures h.Inv() && PinBytesOnly(old(h.V()), h.V()) && h.pinnedCells == {} && NoPinBytes(h.V())
    ensures NoPinBytes(old(h.V())) ==> h.V() == old(h.V())
  {
    hide Starts, GeoOk, MemoryOk, PagesOk, RegionsOk, WellPaired;
    ghost var v := h.V();
    for p := 0 to h.nPages
      invariant |h.descs| == |v.descs| && h.Valid()
      invariant forall q | 0 <= q < |v.descs| :: h.descs[q] == if q < p then v.descs[q].(pinByte := 0) else v.descs[q]
    {
      h.descs := h.descs[p := h.descs[p].(pinByte := 0)];
    }
    h.pinnedCells := {};
    PinTables(v, h.V(), h.committed, h.freeList, h.highWater, h.regions);
    assert NoPinBytes(v) ==> h.descs == v.descs;
  }

  lemma RelocatedSansPins(g: Geometry, v: View, u: View, w: View, phi: map<nat, nat>, pins: set<nat>)
    requires PinBytesOnly(u, w) && Shaped(g, w) && Relocated(g, v, u, phi, pins)
    ensures Relocated(g, v, w, phi, pins)
  {
    forall s | s in phi ensures SameShape(g, v, w, s, phi[s]) {
      assert SameShape(g, v, u, s, phi[s]);
    }
    hide SameShape;
    assert AllObjs(w) == AllObjs(u);
  }

  lemma GensSansPins(v: View, u: View, w: View, phi: map<nat, nat>, to: Generation -> Generation)
    requires PinBytesOnly(u, w) && GensBy(v, u, phi, to)
    ensures GensBy(v, w, phi, to)
  {
  }

  /** Rebuild the cards, drop the pins. */
  method FinishCycle(h: PageHeap)
    requires CycleReady(h)
    modifies h`descs, h`pinnedCells, h.cards
    ensures CycleReady(h) && PinBytesOnly(old(h.V()), h.V()) && h.pinnedCells == {} && NoPinBytes(h.V())
    ensures NoPinBytes(old(h.V())) ==> h.V() == old(h.V())
    ensures CardsTrue(h.Geo(), h.V(), h.cards[..]) && CardsCover(h.Geo(), h.V(), h.cards[..])
  {
    hide Starts, GeoOk, MemoryOk, PagesOk, RegionsOk, HeapOk, WellPaired, NoLarge, PinsOk, PinBytesOnly, NoPinBytes,
      HoldsPointer, CardsCover, IsObj, CardsTrue, CardsClean;
    ghost var g, v := h.Geo(), h.V();
    CycleFacts(h);
    RebuildCards(h);
    ClearAllPins(h);
    ReadyAfterPins(g, v, h.V());
    SameTruth(g, v, h.V(), h.cards[..]);
    StillObjects(v, h.V(), h.explicitPins.Keys);
    RebuiltCover(g, h.V(), h.cards[..]);
    assert PinsOk(h.V(), {}) by { NoPinsOk(h.V()); }
  }

  lemma NoPinsOk(v: View)
    ensures PinsOk(v, {})
  {
  }

  lemma CycleFacts(h: PageHeap)
    requires CycleReady(h)
    ensures HeapOk(h.Geo(), h.V()) && NoLarge(h.V()) && Shaped(h.Geo(), h.V()) && GeoOk(h.Geo())
    ensures forall s | s in h.explicitPins.Keys :: IsObj(h.V(), s)
  {
    hide Starts;
  }

  lemma SameTruth(g: Geometry, v: View, w: View, cards: seq<bool>)
    requires Shaped(g, v) && Shaped(g, w) && PinBytesOnly(v, w) && CardsTrue(g, v, cards)
    ensures CardsTrue(g, w, cards)
  {
  }

  lemma StillObjects(v: View, w: View, cells: set<nat>)
    requires PinBytesOnly(v, w) && forall s | s in cells :: IsObj(v, s)
    ensures forall s | s in cells :: IsObj(w, s)
  {
  }

  // -- Passes in sequence ---------------------------------------------------

  /** Where a collection stands since its start at `v`. `good` says that the graph
      theorem has applied to every pass so far. */
  ghost predicate Cycling(h: PageHeap, v: View, roots0: seq<u64>, roots: seq<u64>, phi: map<nat, nat>, pins: set<nat>,
                          to: Generation -> Generation, good: bool, reach: Reach)
    reads h, h.cells, h.startTable.bits, h.cards
  {
    && CycleReady(h) && h.pinnedCells + h.explicitPins.Keys == pins
    && Relocated(h.Geo(), v, h.V(), phi, pins) && GensBy(v, h.V(), phi, to)
    && GeoOk(h.Geo()) && InRange(h.Geo(), phi) && PinsFollow(h.Geo(), v, h.V(), phi, pins)
    && RootsHeld(h.Geo(), v, phi, roots0, roots) && ReachHeld(h.Geo(), v, h.V(), phi, to, roots0, roots, pins, reach)
    && Shaped(h.Geo(), h.V()) && OldsHeld(h.Geo(), v, h.V(), phi, to, roots0, roots, pins, reach)
    && OldsWatched(h.Geo(), v, h.V(), h.cards[..], reach)
    && (good ==>
          && GraphKept(h.Geo(), v, h.V(), phi, roots0, roots) && GoodHeap(h.Geo(), h.V(), h.cards[..], roots)
          && pins == {})
  }

  lemma CycleStart(h: PageHeap, roots: seq<u64>)
    requires CycleReady(h)
    ensures Cycling(h, h.V(), roots, roots, Staying(AllObjs(h.V())), h.pinnedCells + h.explicitPins.Keys, gen => gen,
                    GoodHeap(h.Geo(), h.V(), h.cards[..], roots) && h.pinnedCells + h.explicitPins.Keys == {},
                    AllReach(CardsCover(h.Geo(), h.V(), h.cards[..])))
  {
    hide Starts, GeoOk, MemoryOk, PagesOk, RegionsOk, WellPaired, NoLarge, GapFree, CardsCover, NoPinBytes, Bit,
      OldsHeld, OldsWatched, RootsHeld, ReachHeld, PinsFollow, GensBy;
    var g, v, live, pins := h.Geo(), h.V(), AllObjs(h.V()), h.pinnedCells + h.explicitPins.Keys;
    StartRelocated(g, v, pins);
    FollowStart(g, v, pins);
    ReachStart(g, v, roots, pins, CardsCover(g, v, h.cards[..]));
    RootsStart(g, v, roots);
    OldsStart(g, v, h.cards[..], roots, pins, CardsCover(g, v, h.cards[..]));
    if GoodHeap(g, v, h.cards[..], roots) {
      IsoStaying(g, v, live);
      forall i | 0 <= i < |roots| ensures WordImage(g, Staying(live), roots[i], roots[i]) {
        RootStays(g, v, live, roots[i]);
      }
    }
  }

  /** Two passes hold the roots as one does. */
  lemma RootsOn(g: Geometry, v: View, u: View, w: View, phi: map<nat, nat>, psi: map<nat, nat>, pins: set<nat>,
                roots0: seq<u64>, roots1: seq<u64>, roots2: seq<u64>)
    requires GeoOk(g) && Relocated(g, v, u, phi, pins) && InRange(g, psi) && InRange(g, Compose(phi, psi))
    requires InRange(g, phi) && RootsHeld(g, v, phi, roots0, roots1) && RootsHeld(g, u, psi, roots1, roots2)
    ensures RootsHeld(g, v, Compose(phi, psi), roots0, roots2)
  {
    hide Relocated, Followed;
    forall i | 0 <= i < |roots0| ensures RootHeld(g, v, Compose(phi, psi), roots0[i], roots2[i]) {
      assert RootHeld(g, v, phi, roots0[i], roots1[i]) && RootHeld(g, u, psi, roots1[i], roots2[i]);
      FollowedOn(g, v, u, w, phi, psi, pins, roots0[i], roots1[i], roots2[i]);
    }
  }

  lemma StartRelocated(g: Geometry, v: View, pins: set<nat>)
    requires HeapOk(g, v) && forall s | s in pins :: IsObj(v, s)
    ensures Relocated(g, v, v, Staying(AllObjs(v)), pins) && GensBy(v, v, Staying(AllObjs(v)), gen => gen)
  {
    hide ObjOk, LayoutAt;
    var phi := Staying(AllObjs(v));
    forall s | s in phi ensures SameShape(g, v, v, s, s) { ObjFitsView(g, v, s); }
    forall s | s in pins ensures s in phi { assert s in AllObjs(v); }
    hide SameShape, IsObj;
  }

  /** The scan of a pass finds every pointer into its source: by cards seen through
      the snapshot, or because there is nothing outside the source. */
  ghost predicate ScanSees(v: View, scan: Option<seq<PageDesc>>, from: Generation) {
    match scan
    case Some(snapshot) => SeesAll(snapshot, v.descs, from)
    case None => forall s | s in AllObjs(v) :: GenAt(v, s) == from
  }

  /** A heap of conses without pins, with a page to spare. */
  ghost predicate Ample(v: View, pins: set<nat>) {
    && pins == {} && NoPinBytes(v) && CountGen(v.descs, Free) >= 1
    && forall s | s in AllObjs(v) :: v.starts[s] == ConsStart
  }

  lemma AmpleIsRoomy(v: View, pins: set<nat>, from: Generation)
    requires Ample(v, pins)
    ensures Roomy(v, from)
  {
    hide NoPinBytes, CountGen;
    forall s: nat | IsObj(v, s) && GenAt(v, s) == from ensures v.starts[s] == ConsStart { assert s in AllObjs(v); }
  }

  lemma StillAmple(g: Geometry, v: View, w: View, phi: map<nat, nat>, live: set<nat>, pins: set<nat>, from: Generation,
                   dest: Generation)
    requires PassResult(g, v, w, phi, live, pins, from, dest) && Ample(v, pins) && NoPinBytes(w)
    requires CountGen(v.descs, Free) <= CountGen(w.descs, Free)
    ensures Ample(w, pins)
  {
    hide NoPinBytes, CountGen;
    forall t | t in AllObjs(w) ensures w.starts[t] == ConsStart {
      var s :| s in phi && phi[s] == t;
      assert InPlace(g, v, w, pins, from, dest, {}, s, t);
      assert s in AllObjs(v);
    }
  }

  /** One pass of a collection. */
  method CyclePass(h: PageHeap, from: Generation, dest: Generation, roots: array<u64>, scan: Option<seq<PageDesc>>,
                   ghost v: View, ghost roots0: seq<u64>, ghost phi0: map<nat, nat>, ghost pins: set<nat>,
                   ghost to0: Generation -> Generation, ghost to: Generation -> Generation, ghost good0: bool,
                   ghost reach0: Reach)
    returns (outcome: Outcome, ghost phi: map<nat, nat>, ghost good: bool, ghost reach: Reach, ghost psi: map<nat, nat>,
        ghost plan: Plan)
    requires Cycling(h, v, roots0, roots[..], phi0, pins, to0, good0, reach0) && RootsApart(h, roots)
    requires from != Free && dest != Free && (scan.Some? ==> |scan.value| == h.nPages)
    requires (good0 ==> ScanSees(h.V(), scan, from)) && Overlooks(h.V(), scan, from, reach0.still)
    requires forall gen: Generation :: to(gen) == PassGen(from, dest)(to0(gen))
    modifies h`descs, h`regions, h`bytesAlloc, h`committed, h`freeList, h`highWater, h`pinnedCells, h`liveCounts,
      h`liveTarget, h.cells, h.startTable.bits, h.markTable.bits, h.cards, roots
    ensures h.Valid() && h.pinnedCells == pins
    ensures plan == PlanPass(h.Geo(), old(h.V()), old(h.regions), Shelf(old(h.descs), old(h.freeList)),
                             ToKeep(h.Geo(), old(h.V()), old(h.cards[..]), old(roots[..]), scan, from, pins), pins,
                                 from, dest)
    ensures outcome.Done? ==> Cycling(h, v, roots0, roots[..], phi, pins, to, good, reach)
    ensures outcome.Done? ==> good == (good0 && (from == dest || plan.straight))
    ensures outcome.Done? ==> reach == ReachAfter(reach0, to0, from, dest, plan.straight)
    ensures outcome.Done? ==> PassResult(h.Geo(), old(h.V()), h.V(), psi, psi.Keys, pins, from, dest)
    ensures outcome.Done? ==> AsPlanned(h.Geo(), old(h.V()), h.V(), pins, from, psi, plan)
    ensures outcome.Done? ==> PagesTiled(h.Geo(), old(h.V()), h.V(), pins, from)
                              && CardedSoFar(h.Geo(), old(h.V()), psi, from, {}, old(h.cards[..]), h.cards[..])
    ensures outcome.Done? ==>
              psi.Keys == ToKeep(h.Geo(), old(h.V()), old(h.cards[..]), old(roots[..]), scan, from, pins)
    ensures outcome.Done? ==> phi == Compose(phi0, psi)
    ensures outcome.Done? && good ==> GraphKept(h.Geo(), old(h.V()), h.V(), psi, old(roots[..]), roots[..])
    ensures outcome.Exhausted? ==> h.poisoned || (dest == G0 && from != G0) || !plan.affords
    ensures outcome.Misread? ==>
              !ScanFits(scan, old(h.V()), ToKeep(h.Geo(), old(h.V()), old(h.cards[..]), old(roots[..]), scan, from,
                  pins) - pins, from)
    ensures outcome.Done? ==> TablesAsPlanned(h.regions, Shelf(h.descs, h.freeList), dest, plan.demand)
    ensures ScanEnds(h.Geo(), old(h.V()), old(h.cards[..]), scan, from, plan, outcome)
    ensures outcome.Done? ==>
              AllTracked(h.Geo(), old(h.V()), h.V(), psi, psi.Keys, pins, from, dest, plan.straight,
                         CardRoots(h.Geo(), old(h.V()), old(h.cards[..]), scan, from), old(roots[..]), roots[..])
    ensures outcome.Done? && NoPinBytes(old(h.V())) && pins == {} ==> NoPinBytes(h.V())
    ensures Ample(old(h.V()), pins) && !h.poisoned && (dest == G0 ==> from == G0) ==>
              outcome.Done? && Ample(h.V(), pins)
  {
    hide Starts, GeoOk, MemoryOk, PagesOk, RegionsOk, HeapOk, WellPaired, NoLarge, GapFree, CardsCover, NoPinBytes,
      PinsOk, Relocated, GensBy, GraphKept, GoodHeap, PassDone, PassResult, EvacSeeds, CardRoots, KeptObjs, GraphReady,
      ScanSees, CycleReady, ScanFits, Ample, Roomy, CountGen, PlanPass, AsPlanned, TablesAsPlanned, AllTracked,
      ScanEnds, Shelf, PagesIn, Members, PagesTiled, CardedSoFar, PinsFollow, Broken, Iso, AllUnseen, RootsHeld,
      ReachHeld, OldsHeld, OldsWatched, ReachAfter, Overlooks, Compose, PassGen;
    ghost var g, u, cards0, roots1 := h.Geo(), h.V(), h.cards[..], roots[..];
    phi, psi, good, reach := phi0, map[], good0, reach0;
    ReadyFor(h, from);
    PinObjects(h);
    PinsAreKept(g, u, from, roots1, CardRoots(g, u, cards0, scan, from), pins);
    GoodGivesReady(h, roots1, scan, from, good0);
    ghost var live;
    var freed, flipped;
    if Ample(u, pins) {
      AmpleIsRoomy(u, pins, from);
      AmplePins(u, pins);
    }
    outcome, freed, flipped, psi, live, plan := Evacuate(h, from, dest, roots, scan);
    if !outcome.Done? { return; }
    good := good0 && (from == dest || plan.straight);
    reach := ReachAfter(reach0, to0, from, dest, plan.straight);
    phi := Compose(phi0, psi);
    DoneReady(h, from, dest, u, cards0, psi, live, G0);
    ReadyIsCycle(h);
    KeptPins(h, u, psi, live, pins, from, dest, v, phi0);
    PlannedFollow(g, u, h.V(), pins, from, psi, plan);
    FollowCompose(g, v, u, h.V(), phi0, psi, pins);
    RelocatedShapes(g, v, u, phi0, pins);
    HeldOverPass(h, v, u, cards0, scan, phi0, psi, pins, from, dest, plan.straight, to0, to, roots0, roots1, roots[..],
      reach0);
    GensByPass(g, u, h.V(), psi, live, h.pinnedCells, from, dest);
    GensCompose(v, u, h.V(), phi0, psi, to0, PassGen(from, dest), to);
    PlannedFree(g, u, h.V(), pins, from, psi, plan);
    if Ample(u, pins) && !h.poisoned && (dest == G0 ==> from == G0) {
      StillAmple(g, u, h.V(), psi, live, pins, from, dest);
    }
    if good {
      KeptCompose(g, v, u, h.V(), phi0, psi, roots0, roots1, roots[..]);
      GoodAfterPass(h, from, dest, u, cards0, psi, live, roots1, roots[..]);
    }
  }

  /** The roots, and what they and the pins reach, over one more pass. */
  lemma ReachOverPass(h: PageHeap, v: View, u: View, cards0: seq<bool>, scan: Option<seq<PageDesc>>,
                      phi0: map<nat, nat>, psi: map<nat, nat>, pins: set<nat>, from: Generation, dest: Generation,
                      straight: bool, to0: Generation -> Generation, to: Generation -> Generation, roots0: seq<u64>,
                      roots1: seq<u64>, roots2: seq<u64>, reach0: Reach)
    requires GeoOk(h.Geo()) && HeapOk(h.Geo(), u)
    requires PassResult(h.Geo(), u, h.V(), psi, psi.Keys, pins, from, dest)
    requires Relocated(h.Geo(), v, u, phi0, pins) && GensBy(v, u, phi0, to0) && InRange(h.Geo(), Compose(phi0, psi))
    requires Shaped(h.Geo(), u) && psi.Keys == ToKeep(h.Geo(), u, cards0, roots1, scan, from, pins)
    requires LedOn(h.Geo(), u, h.V(), psi, psi.Keys, pins, from, dest, straight, roots1, roots2)
    requires (forall gen: Generation :: to(gen) == PassGen(from, dest)(to0(gen))) && pins <= psi.Keys
    requires InRange(h.Geo(), phi0) && RootsHeld(h.Geo(), v, phi0, roots0, roots1) && Shaped(h.Geo(), v)
    requires ReachHeld(h.Geo(), v, u, phi0, to0, roots0, roots1, pins, reach0)
    ensures Shaped(h.Geo(), h.V()) && RootsHeld(h.Geo(), v, Compose(phi0, psi), roots0, roots2)
    ensures ReachHeld(h.Geo(), v, h.V(), Compose(phi0, psi), to, roots0, roots2, pins,
                ReachAfter(reach0, to0, from, dest, straight))
  {
    hide Starts, GeoOk, HeapOk, PassResult, GensBy, AllTracked, ToKeep, RootsHeld, ReachHeld, OldsHeld, OldsWatched,
      ReachAfter, PassGen;
    var g := h.Geo();
    ResultShapes(g, u, h.V(), psi, psi.Keys, pins, from, dest);
    LedOnParts(g, u, h.V(), psi, pins, from, dest, straight, roots1, roots2);
    PassHoldsRoots(g, u, cards0, roots1, roots2, scan, from, pins, psi);
    RootsOn(g, v, u, h.V(), phi0, psi, pins, roots0, roots1, roots2);
    ReachNext(g, v, u, h.V(), cards0, scan, phi0, psi, pins, from, dest, straight, to0, to, roots0, roots1, roots2,
      reach0);
  }

  lemma SeesOlds(v: View, snapshot: seq<PageDesc>, from: Generation, gens: set<Generation>)
    requires ScanSees(v, Some(snapshot), from)
    ensures Overlooks(v, Some(snapshot), from, gens)
  {
  }

  lemma PassParts(g: Geometry, u: View, w: View, before: seq<bool>, after: seq<bool>, psi: map<nat, nat>,
                  pins: set<nat>, from: Generation, dest: Generation, straight: bool, scan: Option<seq<PageDesc>>,
                  roots1: seq<u64>, roots2: seq<u64>)
    requires GeoOk(g) && Shaped(g, u) && Shaped(g, w) && InRange(g, psi)
    requires PassResult(g, u, w, psi, psi.Keys, pins, from, dest) && PagesTiled(g, u, w, pins, from)
    requires CardedSoFar(g, u, psi, from, {}, before, after) && |before| == CARDS_PER_PAGE * g.nPages
    requires psi.Keys == ToKeep(g, u, before, roots1, scan, from, pins)
    requires AllTracked(g, u, w, psi, psi.Keys, pins, from, dest, straight, CardRoots(g, u, before, scan, from), roots1,
                        roots2)
    ensures PassWas(g, u, w, before, after, psi, pins, from, dest, straight, scan, roots1, roots2)
    ensures LedOn(g, u, w, psi, psi.Keys, pins, from, dest, straight, roots1, roots2)
  {
    hide GeoOk, PassResult, PagesTiled, CardedSoFar, ToKeep, LedOn, CardsTracked, CardRoots;
  }

  /** So do the objects that have not moved yet, and what they point to. */
  lemma OldsOverPass(h: PageHeap, v: View, u: View, cards0: seq<bool>, scan: Option<seq<PageDesc>>,
                     phi0: map<nat, nat>, psi: map<nat, nat>, pins: set<nat>, from: Generation, dest: Generation,
                     straight: bool, to0: Generation -> Generation, to: Generation -> Generation, roots0: seq<u64>,
                     roots1: seq<u64>, roots2: seq<u64>, reach0: Reach)
    requires HeapOk(h.Geo(), u) && Shaped(h.Geo(), u) && Shaped(h.Geo(), v) && Shaped(h.Geo(), h.V())
    requires PassWas(h.Geo(), u, h.V(), cards0, h.cards[..], psi, pins, from, dest, straight, scan, roots1, roots2)
    requires Relocated(h.Geo(), v, u, phi0, pins) && GensBy(v, u, phi0, to0) && InRange(h.Geo(), Compose(phi0, psi))
    requires (forall gen: Generation :: to(gen) == PassGen(from, dest)(to0(gen))) && pins <= psi.Keys
    requires GeoOk(h.Geo()) && InRange(h.Geo(), phi0) && Overlooks(u, scan, from, reach0.still)
    requires OldsHeld(h.Geo(), v, u, phi0, to0, roots0, roots1, pins, reach0)
    requires OldsWatched(h.Geo(), v, u, cards0, reach0)
    ensures OldsHeld(h.Geo(), v, h.V(), Compose(phi0, psi), to, roots0, roots2, pins,
                ReachAfter(reach0, to0, from, dest, straight))
    ensures OldsWatched(h.Geo(), v, h.V(), h.cards[..], ReachAfter(reach0, to0, from, dest, straight))
  {
    hide Starts, GeoOk, HeapOk, Relocated, PassWas, GensBy, OldOnes, HeldWith, Watched, PassGen, Overlooks;
    var g, w, next := h.Geo(), h.V(), ReachAfter(reach0, to0, from, dest, straight);
    WatchedNext(g, v, u, w, cards0, h.cards[..], psi, pins, from, dest, straight, scan, roots1, roots2, to0, reach0);
    forall s: nat | OfGens(v, next.still, s) ensures s in Compose(phi0, psi) && Compose(phi0, psi)[s] == s {
      assert OfGens(v, reach0.still, s);
      PassWasParts(g, u, w, cards0, h.cards[..], psi, pins, from, dest, straight, scan, roots1, roots2);
      StaysPut(g, u, w, psi, pins, from, dest, cards0, roots1, scan, s);
    }
    if next.watched {
      forall fields | OldOnes(g, v, next.still, fields)
        ensures HeldWith(g, v, w, Compose(phi0, psi), to, roots0, roots2, pins, next, fields) {
        FieldsOverPass(h, v, u, cards0, scan, phi0, psi, pins, from, dest, straight, to0, to, roots0, roots1, roots2,
          reach0, fields);
      }
    }
  }

  /** All that is held on to, over one more pass. */
  lemma HeldOverPass(h: PageHeap, v: View, u: View, cards0: seq<bool>, scan: Option<seq<PageDesc>>,
                     phi0: map<nat, nat>, psi: map<nat, nat>, pins: set<nat>, from: Generation, dest: Generation,
                     straight: bool, to0: Generation -> Generation, to: Generation -> Generation, roots0: seq<u64>,
                     roots1: seq<u64>, roots2: seq<u64>, reach0: Reach)
    requires GeoOk(h.Geo()) && HeapOk(h.Geo(), u) && Shaped(h.Geo(), u) && Shaped(h.Geo(), v)
    requires Shaped(h.Geo(), h.V()) && InRange(h.Geo(), psi) && InRange(h.Geo(), phi0)
    requires PassResult(h.Geo(), u, h.V(), psi, psi.Keys, pins, from, dest)
    requires PagesTiled(h.Geo(), u, h.V(), pins, from) && |cards0| == CARDS_PER_PAGE * h.Geo().nPages
    requires CardedSoFar(h.Geo(), u, psi, from, {}, cards0, h.cards[..])
    requires psi.Keys == ToKeep(h.Geo(), u, cards0, roots1, scan, from, pins)
    requires AllTracked(h.Geo(), u, h.V(), psi, psi.Keys, pins, from, dest, straight,
                        CardRoots(h.Geo(), u, cards0, scan, from), roots1, roots2)
    requires Relocated(h.Geo(), v, u, phi0, pins) && GensBy(v, u, phi0, to0) && InRange(h.Geo(), Compose(phi0, psi))
    requires (forall gen: Generation :: to(gen) == PassGen(from, dest)(to0(gen))) && pins <= psi.Keys
    requires RootsHeld(h.Geo(), v, phi0, roots0, roots1) && Overlooks(u, scan, from, reach0.still)
    requires ReachHeld(h.Geo(), v, u, phi0, to0, roots0, roots1, pins, reach0)
    requires OldsHeld(h.Geo(), v, u, phi0, to0, roots0, roots1, pins, reach0)
    requires OldsWatched(h.Geo(), v, u, cards0, reach0)
    ensures var (phi, reach) := (Compose(phi0, psi), ReachAfter(reach0, to0, from, dest, straight));
      && RootsHeld(h.Geo(), v, phi, roots0, roots2)
      && ReachHeld(h.Geo(), v, h.V(), phi, to, roots0, roots2, pins, reach)
      && OldsHeld(h.Geo(), v, h.V(), phi, to, roots0, roots2, pins, reach)
      && OldsWatched(h.Geo(), v, h.V(), h.cards[..], reach)
  {
    hide Starts, GeoOk, HeapOk, PassResult, PagesTiled, CardedSoFar, ToKeep, AllTracked, CardRoots, Relocated, GensBy,
      RootsHeld, ReachHeld, OldsHeld, OldsWatched, PassWas, LedOn, Overlooks, PassGen, ReachAfter;
    PassParts(h.Geo(), u, h.V(), cards0, h.cards[..], psi, pins, from, dest, straight, scan, roots1, roots2);
    ReachOverPass(h, v, u, cards0, scan, phi0, psi, pins, from, dest, straight, to0, to, roots0, roots1, roots2,
        reach0);
    OldsOverPass(h, v, u, cards0, scan, phi0, psi, pins, from, dest, straight, to0, to, roots0, roots1, roots2, reach0);
  }

  lemma FieldsOverPass(h: PageHeap, v: View, u: View, cards0: seq<bool>, scan: Option<seq<PageDesc>>,
                       phi0: map<nat, nat>, psi: map<nat, nat>, pins: set<nat>, from: Generation, dest: Generation,
                       straight: bool, to0: Generation -> Generation, to: Generation -> Generation, roots0: seq<u64>,
                       roots1: seq<u64>, roots2: seq<u64>, reach0: Reach, fields: seq<(nat, nat)>)
    requires HeapOk(h.Geo(), u) && Shaped(h.Geo(), u) && Shaped(h.Geo(), v) && Shaped(h.Geo(), h.V())
    requires PassWas(h.Geo(), u, h.V(), cards0, h.cards[..], psi, pins, from, dest, straight, scan, roots1, roots2)
    requires Relocated(h.Geo(), v, u, phi0, pins) && GensBy(v, u, phi0, to0) && InRange(h.Geo(), Compose(phi0, psi))
    requires (forall gen: Generation :: to(gen) == PassGen(from, dest)(to0(gen))) && pins <= psi.Keys
    requires GeoOk(h.Geo()) && InRange(h.Geo(), phi0) && Overlooks(u, scan, from, reach0.still) && reach0.watched
    requires OldsHeld(h.Geo(), v, u, phi0, to0, roots0, roots1, pins, reach0)
    requires OldsWatched(h.Geo(), v, u, cards0, reach0)
    requires OldOnes(h.Geo(), v, reach0.still - {from}, fields)
    ensures HeldWith(h.Geo(), v, h.V(), Compose(phi0, psi), to, roots0, roots2, pins,
                ReachAfter(reach0, to0, from, dest, straight), fields)
  {
    hide Starts, GeoOk, HeapOk, Relocated, PassWas, GensBy, RootsHeld, ReachHeld, Watched, PassGen, ReachAfter, OldOne,
      LedOn, ToKeep, SeesAll, WordsIn, PassResult;
    var g, w := h.Geo(), h.V();
    PassWasParts(g, u, w, cards0, h.cards[..], psi, pins, from, dest, straight, scan, roots1, roots2);
    forall k | 0 <= k < |fields|
      ensures OldOne(g, v, reach0.still, fields[k]) && OfGens(v, reach0.still - {from}, fields[k].0)
      ensures Watched(g, u, cards0, fields[k].0, fields[k].1) && GenAt(u, fields[k].0) != from
      ensures reach0.still - {from} != {}
    {
      assert OldOne(g, v, reach0.still - {from}, fields[k]);
      MoreOlds(g, v, reach0.still - {from}, reach0.still, fields[k]);
      WatchedNow(g, v, u, cards0, reach0, fields[k]);
    }
    assert OldOnes(g, v, reach0.still, fields) && HeldWith(g, v, u, phi0, to0, roots0, roots1, pins, reach0, fields);
    if fields == [] {
      NoFields(v);
      NoFields(u);
      NoFields(w);
      assert roots0 + [] == roots0 && roots1 + [] == roots1 && roots2 + [] == roots2;
    } else {
      MoreOlds(g, v, reach0.still - {from}, reach0.still, fields[0]);
      OldAsRoots(g, u, w, cards0, h.cards[..], psi, pins, from, dest, straight, scan, roots1, roots2, fields);
    }
    ReachOverPass(h, v, u, cards0, scan, phi0, psi, pins, from, dest, straight, to0, to,
      roots0 + WordsIn(v, fields), roots1 + WordsIn(u, fields), roots2 + WordsIn(w, fields), reach0);
  }

  lemma PlannedFollow(g: Geometry, v: View, w: View, pins: set<nat>, from: Generation, phi: map<nat, nat>, plan: Plan)
    requires AsPlanned(g, v, w, pins, from, phi, plan)
    ensures GeoOk(g) && InRange(g, phi) && PinsFollow(g, v, w, phi, pins)
  {
    hide PinsFollow, AsPut, FlippedOnly, PagesIn, GivenBack;
  }

  lemma PlannedFree(g: Geometry, v: View, w: View, pins: set<nat>, from: Generation, phi: map<nat, nat>, plan: Plan)
    requires AsPlanned(g, v, w, pins, from, phi, plan)
    ensures plan.affords && CountGen(w.descs, Free) == plan.free
  {
    hide PinsFollow, AsPut, FlippedOnly, PagesIn, GivenBack, CountGen;
  }

  lemma AmplePins(v: View, pins: set<nat>)
    requires Ample(v, pins)
    ensures pins == {} && NoPinBytes(v)
  {
  }

  lemma ReadyFor(h: PageHeap, from: Generation)
    requires CycleReady(h) && from != Free
    ensures PassReady(h, from) && h.liveTarget == None
  {
    hide Starts, GeoOk, MemoryOk, PagesOk, RegionsOk, HeapOk, WellPaired, NoLarge, PinsOk;
  }

  lemma PinObjects(h: PageHeap)
    requires CycleReady(h)
    ensures Shaped(h.Geo(), h.V()) && forall s | s in h.pinnedCells + h.explicitPins.Keys :: IsObj(h.V(), s)
  {
    hide Starts, GeoOk, MemoryOk, PagesOk, RegionsOk, WellPaired, NoLarge, Bit;
  }

  lemma PinsAreKept(g: Geometry, v: View, from: Generation, roots: seq<u64>, visited: set<nat>, pins: set<nat>)
    requires Shaped(g, v) && forall s | s in pins :: IsObj(v, s)
    ensures pins <= KeptObjs(g, v, from, EvacSeeds(g, v, from, roots, visited, pins))
  {
    hide SeedCells, CrossPinPtrs, WordsAt, Reachable;
    var seeds := EvacSeeds(g, v, from, roots, visited, pins);
    forall s | s in pins ensures s in KeptObjs(g, v, from, seeds) {
      assert s in AllObjs(v);
      if GenAt(v, s) == from {
        assert s in PinsIn(v, pins, from);
        ReachSeed(g, v, from, seeds, s);
      }
    }
  }

  lemma ReadyIsCycle(h: PageHeap)
    requires PassReady(h, G0) && h.liveTarget == None
    ensures CycleReady(h)
  {
  }

  lemma GoodGivesReady(h: PageHeap, roots: seq<u64>, scan: Option<seq<PageDesc>>, from: Generation, good: bool)
    requires good ==> GoodHeap(h.Geo(), h.V(), h.cards[..], roots) && ScanSees(h.V(), scan, from)
    ensures good ==> GraphReady(h.Geo(), h.V(), h.cards[..], scan, roots, {}, from)
  {
    hide Starts, GoodHeap, SeesAll, GraphReady;
    if good {
      match scan
      case Some(snapshot) => GoodIsReady(h.Geo(), h.V(), h.cards[..], roots, snapshot, from);
      case None => AloneIsReady(h.Geo(), h.V(), h.cards[..], roots, from);
    }
  }

  lemma KeptPins(h: PageHeap, u: View, psi: map<nat, nat>, live: set<nat>, pins: set<nat>, from: Generation,
                 dest: Generation, v: View, phi0: map<nat, nat>)
    requires PassResult(h.Geo(), u, h.V(), psi, live, h.pinnedCells, from, dest) && h.pinnedCells == pins
    requires Relocated(h.Geo(), v, u, phi0, pins) && (forall s | s in pins :: IsObj(u, s))
    requires pins <= live
    ensures Relocated(h.Geo(), v, h.V(), Compose(phi0, psi), pins) && InRange(h.Geo(), Compose(phi0, psi))
  {
    hide Starts, SameShape, InPlace, GeoOk;
    RelocatedByPass(h.Geo(), u, h.V(), psi, live, pins, from, dest, pins);
    KeysInValues(h.Geo(), v, u, h.V(), phi0, psi, pins, pins);
    RelocatedCompose(h.Geo(), v, u, h.V(), phi0, psi, pins);
  }

  // -- Collections ----------------------------------------------------------

  /** What a collection that started at `v` leaves. When `good`, the object graph is
      preserved and the heap is as good as before. */
  ghost predicate Collected(h: PageHeap, v: View, roots0: seq<u64>, roots: seq<u64>, phi: map<nat, nat>, pins: set<nat>,
                            to: Generation -> Generation, good: bool, reach: Reach)
    reads h, h.cells, h.startTable.bits, h.cards
  {
    && CycleReady(h) && h.pinnedCells == {} && NoPinBytes(h.V())
    && Relocated(h.Geo(), v, h.V(), phi, pins) && GensBy(v, h.V(), phi, to)
    && GeoOk(h.Geo()) && InRange(h.Geo(), phi) && PinsFollow(h.Geo(), v, h.V(), phi, pins)
    && RootsHeld(h.Geo(), v, phi, roots0, roots) && ReachHeld(h.Geo(), v, h.V(), phi, to, roots0, roots, pins, reach)
    && Shaped(h.Geo(), h.V()) && OldsHeld(h.Geo(), v, h.V(), phi, to, roots0, roots, pins, reach)
    && CardsTrue(h.Geo(), h.V(), h.cards[..]) && CardsCover(h.Geo(), h.V(), h.cards[..])
    && (good ==> GraphKept(h.Geo(), v, h.V(), phi, roots0, roots) && GoodHeap(h.Geo(), h.V(), h.cards[..], roots))
  }

  method EndCycle(h: PageHeap, ghost v: View, ghost roots0: seq<u64>, ghost roots: seq<u64>, ghost phi: map<nat, nat>,
                  ghost pins: set<nat>, ghost to: Generation -> Generation, ghost good: bool, ghost reach: Reach)
    requires Cycling(h, v, roots0, roots, phi, pins, to, good, reach)
    modifies h`descs, h`pinnedCells, h.cards
    ensures Collected(h, v, roots0, roots, phi, pins, to, good, reach)
    ensures PinBytesOnly(old(h.V()), h.V()) && (good ==> h.V() == old(h.V()))
  {
    hide Starts, GeoOk, MemoryOk, PagesOk, RegionsOk, HeapOk, WellPaired, NoLarge, GapFree, CardsCover, NoPinBytes,
      PinsOk, Relocated, GensBy, GraphKept, CardsTrue, ClosedHeap, ValidField, GoodHeap, PinsFollow, RootsHeld,
      ReachHeld, OldsHeld, OldsWatched, ReachAfter;
    ghost var g, u := h.Geo(), h.V();
    CycleFacts(h);
    if good { GoodNoPins(g, u, h.cards[..], roots); }
    FinishCycle(h);
    CycleFacts(h);
    RelocatedSansPins(g, v, u, h.V(), phi, pins);
    FollowInto(g, v, u, h.V(), phi, pins);
    RelocatedShapes(g, v, u, phi, pins);
    ReachSansPinsAfter(g, v, u, h.V(), phi, to, roots0, roots, pins, reach);
    OldsSansPinsAfter(g, v, u, h.V(), phi, to, roots0, roots, pins, reach);
    GensSansPins(v, u, h.V(), phi, to);
    if good { GoodWithCards(g, u, roots, h.cards[..]); }
  }

  lemma GoodNoPins(g: Geometry, v: View, cards: seq<bool>, roots: seq<u64>)
    requires GoodHeap(g, v, cards, roots)
    ensures NoPinBytes(v)
  {
  }

  lemma GoodWithCards(g: Geometry, v: View, roots: seq<u64>, cards: seq<bool>)
    requires (exists before :: GoodHeap(g, v, before, roots)) && Shaped(g, v) && CardsCover(g, v, cards)
    ensures GoodHeap(g, v, cards, roots) && NoPinBytes(v)
  {
  }

  const G0_PROMOTION_THRESHOLD: nat := 3
  const G1_PROMOTION_THRESHOLD: nat := 5

  /** `saturating_add(1)` on 32 bits. */
  function Bumped(n: nat): nat { if n < 0xFFFF_FFFF then n + 1 else n }

  /** The promotion counters after a minor collection, and which generations it promotes. */
  datatype MinorPlan = MinorPlan(minors: nat, promotes: nat, promoteG0: bool, promoteG1: bool)

  function PlanMinor(minors: nat, promotes: nat): MinorPlan {
    if Bumped(minors) < G0_PROMOTION_THRESHOLD then MinorPlan(Bumped(minors), promotes, false, false)
    else if Bumped(promotes) < G1_PROMOTION_THRESHOLD then MinorPlan(0, Bumped(promotes), true, false)
    else MinorPlan(0, 0, true, true)
  }

  /** Where a minor collection takes the objects of each generation. */
  function MinorGen(plan: MinorPlan): Generation -> Generation {
    (gen: Generation) => match gen
      case G0 => if plan.promoteG1 then Tenured else if plan.promoteG0 then G1 else G0
      case G1 => if plan.promoteG1 then Tenured else G1
      case _ => gen
  }

  // -- Snapshots ------------------------------------------------------------

  /** A snapshot taken before the pass keeps the card scan off all of the source. */
  lemma FreshSnapshot(v: View, move: set<nat>, from: Generation)
    ensures ScanFits(Some(v.descs), v, move, from) && ScanSees(v, Some(v.descs), from)
  {
  }

  /** A snapshot from before the pass from G0 to G1 still sees every page outside G1. */
  lemma StaleSees(g: Geometry, before: View, after: View, phi: map<nat, nat>, live: set<nat>, pins: set<nat>)
    requires PassResult(g, before, after, phi, live, pins, G0, G1)
    ensures ScanSees(after, Some(before.descs), G1)
  {
    hide InPlace;
  }

  /** The pages of G1 that it sees as well are old G0 pages. */
  lemma StaleSeen(g: Geometry, before: View, after: View, phi: map<nat, nat>, live: set<nat>, pins: set<nat>, p: nat)
    requires PassResult(g, before, after, phi, live, pins, G0, G1)
    requires p < |after.descs| && after.descs[p].generation == G1 && !Hidden(before.descs, G1, p)
    ensures p < |before.descs| && before.descs[p].generation == G0
  {
    hide InPlace;
  }

  /** If the stale snapshot lets the scan come upon headed objects about to move, a page given
      back in the first pass was opened again for them, as the plan of the first pass says. */
  lemma VictimsOnReused(g: Geometry, before: View, after: View, phi: map<nat, nat>, live: set<nat>, pins: set<nat>,
                        first: Plan, move: set<nat>)
    requires PassResult(g, before, after, phi, live, pins, G0, G1) && AsPlanned(g, before, after, pins, G0, phi, first)
    requires (forall s | s in move :: IsObj(after, s) && s !in pins)
    requires !ScanFits(Some(before.descs), after, move, G1)
    ensures first.affords && Reopens(before, G0, first)
  {
    hide PassResult, PinsFollow, InRange, CountGen, FlippedOnly, PagesIn, Members, GivenBack;
    ResultShapes(g, before, after, phi, live, pins, G0, G1);
    var p: nat :| p < |after.descs| && after.descs[p].generation == G1 && !Hidden(before.descs, G1, p)
        && !ConsesMove(after, move, p);
    var s :| s in move && s / PAGE_CELLS == p && !(s < |after.starts| && after.starts[s] == ConsStart);
    StaleSeen(g, before, after, phi, live, pins, p);
    assert IsObj(after, s);
    CameFrom(g, before, after, phi, live, pins, s);
  }

  lemma CameFrom(g: Geometry, before: View, after: View, phi: map<nat, nat>, live: set<nat>, pins: set<nat>, t: nat)
    requires PassResult(g, before, after, phi, live, pins, G0, G1) && IsObj(after, t) && t !in pins
    requires t / PAGE_CELLS < |before.descs| && GenAt(before, t) == G0
    ensures exists x :: x in phi && phi[x] == t && x < |before.starts| && before.starts[x] == after.starts[t]
                        && GenAt(before, x) == G0 && x !in pins
  {
    hide SameShape;
    assert t in AllObjs(after);
    var x :| x in phi && phi[x] == t;
    assert InPlace(g, before, after, pins, G0, G1, {}, x, t);
    ShapeFit(g, before, after, x, t);
  }

  // -- What is left for the second pass, counted beforehand -----------------

  /** The pass from G1 that follows one from G0 to G1 fits one chunk: with `free` pages Free
      after the first, all others outside Tenured are in G1. */
  predicate OneRest(descs: seq<PageDesc>, free: nat) {
    free + CountGen(descs, Tenured) >= |descs|
    || Cut(free, 0, |descs| - free - CountGen(descs, Tenured)) == |descs| - free - CountGen(descs, Tenured)
  }

  lemma {:induction false} CountAll(descs: seq<PageDesc>)
    ensures CountGen(descs, Free) + CountGen(descs, G0) + CountGen(descs, G1) + CountGen(descs, Tenured) == |descs|
  {
    if descs != [] { CountAll(descs[..|descs| - 1]); }
  }

  lemma {:induction false} CountNone(descs: seq<PageDesc>, gen: Generation)
    requires NoPages(descs, gen)
    ensures CountGen(descs, gen) == 0
  {
    if descs != [] { CountNone(descs[..|descs| - 1], gen); }
  }

  lemma {:induction false} CountPages(descs: seq<PageDesc>, gen: Generation)
    ensures |PagesIn(descs, gen)| == CountGen(descs, gen)
  {
    if descs != [] { CountPages(descs[..|descs| - 1], gen); }
  }

  lemma OneRestIs(g: Geometry, v: View, w: View, phi: map<nat, nat>, live: set<nat>, free: nat)
    requires PassResult(g, v, w, phi, live, {}, G0, G1) && CountGen(w.descs, Free) == free
    ensures OneRest(v.descs, free) <==> OneChunk(w.descs, {}, G1)
  {
    hide InPlace, CountGen, PagesIn, Cut;
    NowEmpty(w, G0, G1);
    CountNone(w.descs, G0);
    CountAll(w.descs);
    CountPages(w.descs, G1);
    SameCount(v.descs, w.descs, Tenured);
    assert PinnedPages(w.descs, {}, G1) == {};
  }

  method CountMinor(h: PageHeap)
    requires CycleReady(h)
    modifies h`minorsSinceG0Promote
    ensures CycleReady(h) && h.minorsSinceG0Promote == Bumped(old(h.minorsSinceG0Promote))
  {
    h.minorsSinceG0Promote := Bumped(h.minorsSinceG0Promote);
  }

  method SetCounters(h: PageHeap, minors: nat, promotes: nat, ghost v: View, ghost roots0: seq<u64>,
                     ghost roots: seq<u64>, ghost phi: map<nat, nat>, ghost pins: set<nat>,
                     ghost to: Generation -> Generation, ghost good: bool, ghost reach: Reach)
    requires Cycling(h, v, roots0, roots, phi, pins, to, good, reach)
    modifies h`minorsSinceG0Promote, h`g0PromotesSinceG1Promote
    ensures Cycling(h, v, roots0, roots, phi, pins, to, good, reach)
    ensures h.minorsSinceG0Promote == minors && h.g0PromotesSinceG1Promote == promotes
  {
    hide Starts, GeoOk, MemoryOk, PagesOk, RegionsOk, HeapOk, WellPaired, NoLarge, PinsOk, Relocated, GensBy,
      GraphKept, GoodHeap, RootsHeld, ReachHeld, OldsHeld, OldsWatched, ReachAfter;
    h.minorsSinceG0Promote := minors;
    h.g0PromotesSinceG1Promote := promotes;
  }

  /** No page is left in `gen`. */
  ghost predicate NoPages(descs: seq<PageDesc>, gen: Generation) {
    forall p | 0 <= p < |descs| :: descs[p].generation != gen
  }

  lemma StaysEmpty(g: Geometry, v: View, w: View, phi: map<nat, nat>, live: set<nat>, pins: set<nat>, from: Generation,
                   dest: Generation, gen: Generation)
    requires PassResult(g, v, w, phi, live, pins, from, dest) && NoPages(v.descs, gen) && gen != dest && gen != Free
    ensures NoPages(w.descs, gen)
  {
    hide InPlace;
  }

  lemma NowEmpty(v: View, from: Generation, dest: Generation)
    requires Emptied(v, from, dest, {}) && from != dest
    ensures NoPages(v.descs, from)
  {
  }

  lemma ResultEmpty(g: Geometry, v: View, w: View, phi: map<nat, nat>, live: set<nat>, pins: set<nat>, from: Generation,
                    dest: Generation)
    requires PassResult(g, v, w, phi, live, pins, from, dest) && from != dest
    ensures NoPages(w.descs, from)
  {
    hide InPlace;
    NowEmpty(w, from, dest);
  }

  // -- Minor collections ----------------------------------------------------

  lemma ReadyPages(h: PageHeap)
    requires CycleReady(h)
    ensures ConsPagesOk(h.V()) && HeapOk(h.Geo(), h.V()) && NoLarge(h.V())
    ensures |h.cards[..]| == CARDS_PER_PAGE * h.Geo().nPages && h.Valid()
    ensures Shaped(h.Geo(), h.V())
  {
    hide Starts, GeoOk, PagesOk, RegionsOk, WellPaired, NoLarge, PinsOk, CardsClean;
  }

  /** The second half of a promoting minor: the counters, and G1 to Tenured when they say so. */
  method Graduate(h: PageHeap, roots: array<u64>, descsAtScanTime: seq<PageDesc>, ghost v: View,
                  ghost roots0: seq<u64>, ghost phi0: map<nat, nat>, ghost pins: set<nat>, ghost good0: bool,
                  ghost reach0: Reach, ghost plan: MinorPlan)
    returns (outcome: Outcome, ghost phi: map<nat, nat>, ghost good: bool, ghost reach: Reach, ghost second: Plan)
    requires Cycling(h, v, roots0, roots[..], phi0, pins, PassGen(G0, G1), good0, reach0) && RootsApart(h, roots)
    requires plan == PlanMinor(2, h.g0PromotesSinceG1Promote) && |descsAtScanTime| == h.nPages
    requires ScanSees(h.V(), Some(descsAtScanTime), G1) && NoPages(h.descs, G0)
    modifies h`descs, h`regions, h`bytesAlloc, h`committed, h`freeList, h`highWater, h`pinnedCells, h`liveCounts,
      h`liveTarget, h`minorsSinceG0Promote, h`g0PromotesSinceG1Promote, h.cells, h.startTable.bits, h.markTable.bits,
      h.cards, roots
    ensures h.Valid()
    ensures second == PlanPass(h.Geo(), old(h.V()), old(h.regions), Shelf(old(h.descs), old(h.freeList)),
                               ToKeep(h.Geo(), old(h.V()), old(h.cards[..]), old(roots[..]), Some(descsAtScanTime), G1,
                                   pins),
                               pins, G1, Tenured)
    ensures outcome.Done? ==> Cycling(h, v, roots0, roots[..], phi, pins, MinorGen(plan), good, reach)
    ensures outcome.Done? ==> h.minorsSinceG0Promote == plan.minors && h.g0PromotesSinceG1Promote == plan.promotes
    ensures outcome.Done? ==> good == (good0 && (plan.promoteG1 ==> second.straight)) && NoPages(h.descs, G0)
    ensures outcome.Done? ==>
              reach == if plan.promoteG1 then ReachAfter(reach0, PassGen(G0, G1), G1, Tenured,
                  second.straight) else reach0
    ensures outcome.Exhausted? ==> plan.promoteG1 && (h.poisoned || !second.affords)
    ensures outcome.Misread? ==> plan.promoteG1
    ensures outcome.Misread? ==>
              !ScanFits(Some(descsAtScanTime), old(h.V()),
                        ToKeep(h.Geo(), old(h.V()), old(h.cards[..]), old(roots[..]), Some(descsAtScanTime), G1,
                            pins) - pins, G1)
    ensures outcome.Done? && plan.promoteG1 ==> second.affords
    ensures plan.promoteG1 ==>
              ScanEnds(h.Geo(), old(h.V()), old(h.cards[..]), Some(descsAtScanTime), G1, second, outcome)
    ensures Ample(old(h.V()), pins) && !h.poisoned ==> outcome.Done?
  {
    hide Starts, GeoOk, MemoryOk, PagesOk, RegionsOk, HeapOk, WellPaired, NoLarge, GapFree, CardsCover, NoPinBytes,
      PinsOk, Relocated, GensBy, GraphKept, GoodHeap, EvacSeeds, CardRoots, KeptObjs, ScanSees, ScanFits, CycleReady,
      ToKeep, PlanPass, Compose, Ample, NoPages, PassResult, AsPlanned, TablesAsPlanned, AllTracked, ScanEnds, Shelf,
      PagesIn, Members, PagesTiled, CardedSoFar, PinsFollow, CountGen, RootsHeld, ReachHeld, OldsHeld, OldsWatched,
      ReachAfter;
    outcome, phi, good, reach := Done, phi0, good0, reach0;
    ReadyPages(h);
    second := PlanPass(h.Geo(), h.V(), h.regions, Shelf(h.descs, h.freeList),
                       ToKeep(h.Geo(), h.V(), h.cards[..], roots[..], Some(descsAtScanTime), G1, pins), pins, G1,
                           Tenured);
    var promotes := Bumped(h.g0PromotesSinceG1Promote);
    SeesOlds(h.V(), descsAtScanTime, G1, reach.still);
    SetCounters(h, 0, promotes, v, roots0, roots[..], phi, pins, PassGen(G0, G1), good, reach);
    if promotes >= G1_PROMOTION_THRESHOLD {
      ghost var u, psi := h.V(), phi0;
      outcome, phi, good, reach, psi, second :=
          CyclePass(h, G1, Tenured, roots, Some(descsAtScanTime), v, roots0, phi, pins,
                                                   PassGen(G0, G1), MinorGen(plan), good, reach);
      if !outcome.Done? { return; }
      PlannedFree(h.Geo(), u, h.V(), pins, G1, psi, second);
      StaysEmpty(h.Geo(), u, h.V(), psi, psi.Keys, pins, G1, Tenured, G0);
      SetCounters(h, 0, 0, v, roots0, roots[..], phi, pins, MinorGen(plan), good, reach);
    } else {
      SameGenMap(v, h.V(), phi, PassGen(G0, G1), MinorGen(plan));
      RelocatedShapes(h.Geo(), v, h.V(), phi, pins);
      SameReach(h.Geo(), v, h.V(), phi, PassGen(G0, G1), MinorGen(plan), roots0, roots[..], pins, reach);
      SameOlds(h.Geo(), v, h.V(), phi, PassGen(G0, G1), MinorGen(plan), roots0, roots[..], pins, reach);
    }
    ReadyFor(h, G1);
  }

  lemma StaysInG0(h: PageHeap, v: View, roots0: seq<u64>, roots: seq<u64>, phi: map<nat, nat>, pins: set<nat>,
                  good: bool, reach: Reach, plan: MinorPlan)
    requires Cycling(h, v, roots0, roots, phi, pins, PassGen(G0, G0), good, reach) && !plan.promoteG0 && !plan.promoteG1
    ensures Cycling(h, v, roots0, roots, phi, pins, MinorGen(plan), good, reach)
  {
    hide Starts, CycleReady, Relocated, GensBy, GraphKept, GoodHeap, RootsHeld, ReachHeld, OldsHeld, OldsWatched,
      ReachAfter;
    SameGenMap(v, h.V(), phi, PassGen(G0, G0), MinorGen(plan));
    RelocatedShapes(h.Geo(), v, h.V(), phi, pins);
    SameReach(h.Geo(), v, h.V(), phi, PassGen(G0, G0), MinorGen(plan), roots0, roots, pins, reach);
    SameOlds(h.Geo(), v, h.V(), phi, PassGen(G0, G0), MinorGen(plan), roots0, roots, pins, reach);
  }

  lemma SameOlds(g: Geometry, v: View, w: View, phi: map<nat, nat>, a: Generation -> Generation,
                 b: Generation -> Generation, roots0: seq<u64>, roots: seq<u64>, pins: set<nat>, reach: Reach)
    requires GeoOk(g) && InRange(g, phi) && Shaped(g, v) && Shaped(g, w)
    requires OldsHeld(g, v, w, phi, a, roots0, roots, pins, reach)
    requires forall gen: Generation :: a(gen) == b(gen)
    ensures OldsHeld(g, v, w, phi, b, roots0, roots, pins, reach)
  {
    hide OldOnes, RootsHeld, ReachHeld, GeoOk;
    if reach.watched {
      forall fields | OldOnes(g, v, reach.still, fields)
        ensures HeldWith(g, v, w, phi, b, roots0, roots, pins, reach, fields) {
        assert HeldWith(g, v, w, phi, a, roots0, roots, pins, reach, fields);
        SameReach(g, v, w, phi, a, b, roots0 + WordsIn(v, fields), roots + WordsIn(w, fields), pins, reach);
      }
    }
  }

  lemma SameReach(g: Geometry, v: View, w: View, phi: map<nat, nat>, a: Generation -> Generation,
                  b: Generation -> Generation, roots0: seq<u64>, roots: seq<u64>, pins: set<nat>, reach: Reach)
    requires Shaped(g, v) && Shaped(g, w) && ReachHeld(g, v, w, phi, a, roots0, roots, pins, reach)
    requires forall gen: Generation :: a(gen) == b(gen)
    ensures ReachHeld(g, v, w, phi, b, roots0, roots, pins, reach)
  {
    hide KeepsReach, CarriesReach;
  }

  lemma SameGenMap(v: View, w: View, phi: map<nat, nat>, a: Generation -> Generation, b: Generation -> Generation)
    requires GensBy(v, w, phi, a) && forall gen: Generation :: a(gen) == b(gen)
    ensures GensBy(v, w, phi, b)
  {
  }

  /** A pass from G0 to G1 has come to its end, and the plan of one from G1 to Tenured whose card
      scan goes by `snapshot` is known. */
  ghost predicate HalfwayOk(g: Geometry, v: View, cards0: seq<bool>, roots0: seq<u64>, mid: Halfway, pins: set<nat>,
                            snapshot: seq<PageDesc>, first: Plan, second: Plan)
  {
    && PassResult(g, v, mid.view, mid.psi, mid.psi.Keys, pins, G0, G1)
          && AsPlanned(g, v, mid.view, pins, G0, mid.psi, first)
    && |mid.regions| == 6 && HeapOk(g, mid.view) && NoLarge(mid.view) && Shaped(g, mid.view)
    && (NoPinBytes(v) && pins == {} ==> NoPinBytes(mid.view))
    && (pins == {} && first.straight && GoodHeap(g, v, cards0, roots0) ==>
          GraphKept(g, v, mid.view, mid.psi, roots0, mid.roots))
    && second == SecondPlan(g, mid, snapshot, pins)
  }

  /** A pass has come to its end as planned, and has left `mid`. */
  ghost predicate PassedOn(g: Geometry, v: View, mid: Halfway, pins: set<nat>, from: Generation, dest: Generation,
                           plan: Plan)
  {
    && Shaped(g, mid.view) && |mid.regions| == 6
    && PassResult(g, v, mid.view, mid.psi, mid.psi.Keys, pins, from, dest)
    && AsPlanned(g, v, mid.view, pins, from, mid.psi, plan)
  }

  /** The plan of the pass that comes next. */
  ghost function NextPlan(g: Geometry, mid: Halfway, scan: Option<seq<PageDesc>>, from: Generation, dest: Generation,
                          pins: set<nat>): Plan
    requires Shaped(g, mid.view) && |mid.regions| == 6 && HasRegion(dest, Cons)
  {
    PlanPass(g, mid.view, mid.regions, mid.shelf, ToKeep(g, mid.view, mid.cards, mid.roots, scan, from, pins), pins,
             from, dest)
  }

  /** The tables a pass from G0 to G1 with a fresh snapshot has left. */
  ghost predicate HalfwayTables(g: Geometry, v: View, cards0: seq<bool>, roots0: seq<u64>, mid: Halfway, pins: set<nat>,
                                first: Plan)
  {
    && Shaped(g, v) && TablesAsPlanned(mid.regions, mid.shelf, G1, first.demand)
    && (forall p :: p in mid.shelf <==> 0 <= p < |mid.view.descs| && mid.view.descs[p].generation == Free)
    && CardedSoFar(g, v, mid.psi, G0, {}, cards0, mid.cards)
    && mid.psi.Keys == ToKeep(g, v, cards0, roots0, Some(v.descs), G0, pins)
  }

  lemma ShelfIsFree(h: PageHeap)
    requires CycleReady(h)
    ensures forall p :: p in Shelf(h.descs, h.freeList) <==> 0 <= p < |h.descs| && h.descs[p].generation == Free
  {
    hide Starts, GeoOk, MemoryOk, RegionsOk, HeapOk, WellPaired, NoLarge, PinsOk, CardsClean;
    forall p: nat ensures p in Shelf(h.descs, h.freeList) <==> p < |h.descs| && h.descs[p].generation == Free {
      OnShelf(h.descs, h.freeList, p);
    }
    forall p | p in Shelf(h.descs, h.freeList) ensures p >= 0 {}
  }

  /** Where the second pass fits one chunk it is straight. */
  lemma SecondStraight(g: Geometry, v: View, cards0: seq<bool>, roots0: seq<u64>, mid: Halfway, snapshot: seq<PageDesc>,
                       first: Plan, second: Plan)
    requires HalfwayOk(g, v, cards0, roots0, mid, {}, snapshot, first, second)
    ensures OneRest(v.descs, first.free) ==> second.straight
  {
    hide PassResult, AsPlanned, PlanPass, ToKeep, OneChunk, OneRest, PackChunk, FirstDemand;
    PlannedFree(g, v, mid.view, {}, G0, mid.psi, first);
    OneRestIs(g, v, mid.view, mid.psi, mid.psi.Keys, first.free);
    if OneRest(v.descs, first.free) {
      OnePlan(g, mid.view, mid.regions, mid.shelf, SecondLive(g, mid, snapshot, {}), {}, G1, Tenured);
    }
  }

  lemma HalfwayPlanned(g: Geometry, v: View, cards0: seq<bool>, roots0: seq<u64>, mid: Halfway, pins: set<nat>,
                       snapshot: seq<PageDesc>, first: Plan, second: Plan)
    requires HalfwayOk(g, v, cards0, roots0, mid, pins, snapshot, first, second)
    ensures first.affords
  {
    hide PassResult, PinsFollow, AsPut, FlippedOnly, PlanPass;
  }

  /** How the second pass of a cascade ends as far as its card scan goes: it stops for it exactly if
      the scan is led to a marker that it cannot take for a header, which takes a page that the
      first pass gave back and opened again for headed objects. */
  ghost predicate ScanVerdict(g: Geometry, v: View, mid: Halfway, pins: set<nat>, first: Plan, second: Plan,
                              outcome: Outcome)
  {
    && Shaped(g, mid.view) && ScanEnds(g, mid.view, mid.cards, Some(v.descs), G1, second, outcome)
    && (outcome.Misread? ==>
          first.affords && Reopens(v, G0, first)
              && !ScanFits(Some(v.descs), mid.view, SecondLive(g, mid, v.descs, pins) - pins, G1))
  }

  lemma SecondScan(g: Geometry, v: View, cards0: seq<bool>, roots0: seq<u64>, mid: Halfway, pins: set<nat>,
                   first: Plan, second: Plan, outcome: Outcome)
    requires HalfwayOk(g, v, cards0, roots0, mid, pins, v.descs, first, second)
    requires ScanEnds(g, mid.view, mid.cards, Some(v.descs), G1, second, outcome)
    requires outcome.Misread? ==> !ScanFits(Some(v.descs), mid.view, SecondLive(g, mid, v.descs, pins) - pins, G1)
    ensures ScanVerdict(g, v, mid, pins, first, second, outcome)
  {
    hide PassResult, AsPlanned, PlanPass, ToKeep, ScanFits, ScanEnds, Reopens;
    KeptIsObj(g, mid.view, mid.cards, mid.roots, Some(v.descs), G1, pins);
    if outcome.Misread? {
      VictimsOnReused(g, v, mid.view, mid.psi, mid.psi.Keys, pins, first, SecondLive(g, mid, v.descs, pins) - pins);
    }
  }

  /** A pass leaves no header that reads as a pointer where there was none. */
  lemma PlainAfter(g: Geometry, v: View, w: View, phi: map<nat, nat>, live: set<nat>, pins: set<nat>, from: Generation,
                   dest: Generation)
    requires GeoOk(g) && HeapOk(g, v) && PassResult(g, v, w, phi, live, pins, from, dest) && Shaped(g, v)
    requires PlainHeaders(g, v)
    ensures Shaped(g, w) && PlainHeaders(g, w)
  {
    hide SameShape, ObjOk, InHeap;
    forall x: nat | x < |w.starts| && IsObj(w, x) && w.starts[x] == HeaderStart ensures !InHeap(g, w.cells[x]) {
      assert x in AllObjs(w);
      var s :| s in phi && phi[s] == x;
      assert InPlace(g, v, w, pins, from, dest, {}, s, x);
      ShapeFit(g, v, w, s, x);
      HeaderKept(g, v, w, s, x);
    }
  }

  /** How a cascade ends, told from the heap before it: with pages enough for its second pass, it
      stops at a marker exactly if in the heap foreseen after the first pass a dirty card that the
      stale snapshot lets the scan look at leads it to a marker, of an object moved where the plan
      of the second pass puts it, that it cannot take for a header. */
  ghost predicate CascadeForetold(g: Geometry, v: View, regions: seq<AllocRegion>, cards: seq<bool>, roots: seq<u64>,
                                  first: Plan, outcome: Outcome)
  {
    && GeoOk(g) && Shaped(g, v) && |regions| == 6
    && var half := Foreseen(g, v, regions, cards, roots, ToKeep(g, v, cards, roots, Some(v.descs), G0, {}), first);
       && (outcome.Exhausted? ==> !SecondPlan(g, half, v.descs, {}).affords)
       && (outcome.Misread? ==> SecondGarbled(g, half, v.descs, {}))
       && (outcome.Done? ==> SecondPlan(g, half, v.descs, {}).affords && !SecondGarbled(g, half, v.descs, {}))
  }

  /** A heap before a cascade that says how it ends. */
  ghost predicate Foretellable(g: Geometry, v: View, cards: seq<bool>, roots: seq<u64>, pins: set<nat>, first: Plan) {
    && GoodHeap(g, v, cards, roots) && PlainHeaders(g, v) && pins == {}
    && first.affords && first.straight
  }

  lemma Foretelling(g: Geometry, v: View, regions: seq<AllocRegion>, shelf: seq<nat>, cards: seq<bool>, roots: seq<u64>,
                    mid: Halfway, first: Plan, second: Plan, outcome: Outcome)
    requires HalfwayOk(g, v, cards, roots, mid, {}, v.descs, first, second) && NoLarge(v) && |regions| == 6
    requires HalfwayTables(g, v, cards, roots, mid, {}, first) && Foretellable(g, v, cards, roots, {}, first)
    requires first == PlanPass(g, v, regions, shelf, ToKeep(g, v, cards, roots, Some(v.descs), G0, {}), {}, G0, G1)
    requires ScanVerdict(g, v, mid, {}, first, second, outcome)
    requires (outcome.Exhausted? ==> !second.affords) && (outcome.Done? ==> second.affords)
    ensures CascadeForetold(g, v, regions, cards, roots, first, outcome)
  {
    hide HeapOk, GapFree, ClosedHeap, CardsCover, ValidField, PassResult, AsPlanned, TablesAsPlanned, CardedSoFar,
      ToKeep, NoLarge, NoPinBytes, Iso, RootsImage, PlainHeaders, Garbled, PlanFrom, FirstDemand, PagesIn, CountGen,
      Members, Foreseen, Afresh, ScanFits, Reopens;
    var live := ToKeep(g, v, cards, roots, Some(v.descs), G0, {});
    FirstOthers(g, v, regions, shelf, live);
    PlannedPut(g, v, mid.view, {}, G0, mid.psi, first);
    assert Found(g, v, regions, cards, roots, live, first, mid);
    SecondForeseen(g, v, regions, cards, roots, live, first, mid, v.descs);
    PlainAfter(g, v, mid.view, mid.psi, live, {}, G0, G1);
  }

  lemma NoPinsForetold(g: Geometry, v: View, cards: seq<bool>, roots: seq<u64>, pins: set<nat>, first: Plan)
    ensures Foretellable(g, v, cards, roots, pins, first) ==> pins == {} && first.affords
  {
    hide GoodHeap, PlainHeaders;
  }

  lemma FirstOthers(g: Geometry, v: View, regions: seq<AllocRegion>, shelf: seq<nat>, live: set<nat>)
    requires |regions| == 6
    ensures PlanPass(g, v, regions, shelf, live, {}, G0, G1).demand.others == Afresh(Afresh(regions, G0), G1)
  {
    hide PlanFrom, Afresh, PagesIn, CountGen;
    PlanOthers(g, v, live, {}, G0, G1, PagesIn(v.descs, G0), 0, CountGen(v.descs, Free),
      FirstDemand(regions, shelf, G0, G1));
  }

  lemma PlannedPut(g: Geometry, v: View, w: View, pins: set<nat>, from: Generation, phi: map<nat, nat>, plan: Plan)
    requires AsPlanned(g, v, w, pins, from, phi, plan)
    ensures AsPut(v, phi, pins, from, plan.demand.at) && GeoOk(g)
  {
    hide PinsFollow, AsPut, FlippedOnly, PagesIn, GivenBack, CountGen, GeoOk;
  }

  lemma SameNoPages(a: seq<PageDesc>, b: seq<PageDesc>, gen: Generation)
    requires |a| == |b| && forall p | 0 <= p < |a| :: b[p].generation == a[p].generation
    ensures NoPages(a, gen) ==> NoPages(b, gen)
  {
  }

  lemma CyclingReady(h: PageHeap, v: View, roots0: seq<u64>, roots: seq<u64>, phi: map<nat, nat>, pins: set<nat>,
                     to: Generation -> Generation, good: bool, reach: Reach)
    requires Cycling(h, v, roots0, roots, phi, pins, to, good, reach)
    ensures CycleReady(h)
  {
    hide Starts, CycleReady, Relocated, GensBy, GraphKept, GoodHeap, PinsFollow, RootsHeld, ReachHeld, OldsHeld,
      OldsWatched, ReachAfter;
  }

  lemma CollectedValid(h: PageHeap, v: View, roots0: seq<u64>, roots: seq<u64>, phi: map<nat, nat>, pins: set<nat>,
                       to: Generation -> Generation, good: bool, reach: Reach)
    requires Collected(h, v, roots0, roots, phi, pins, to, good, reach)
    ensures h.Valid()
  {
    hide Starts, GeoOk, MemoryOk, PagesOk, RegionsOk, HeapOk, WellPaired, NoLarge, PinsOk, Relocated, GensBy,
      GraphKept, GoodHeap, CardsCover, NoPinBytes, RootsHeld, ReachHeld, OldsHeld, OldsWatched, ReachAfter;
  }

  /** Cards and pins at the end of a minor. */
  method EndMinor(h: PageHeap, ghost v: View, ghost roots0: seq<u64>, ghost roots: seq<u64>, ghost phi: map<nat, nat>,
                  ghost pins: set<nat>, ghost plan: MinorPlan, ghost good: bool, ghost reach: Reach)
    requires Cycling(h, v, roots0, roots, phi, pins, MinorGen(plan), good, reach) && (plan.promoteG0 ==>
        NoPages(h.descs, G0))
    modifies h`descs, h`pinnedCells, h.cards
    ensures h.Valid() && Collected(h, v, roots0, roots, phi, pins, MinorGen(plan), good, reach)
    ensures plan.promoteG0 ==> NoPages(h.descs, G0)
  {
    hide Starts, GeoOk, MemoryOk, PagesOk, RegionsOk, HeapOk, WellPaired, NoLarge, Cycling, Collected, CardsTrue,
      MinorGen, NoPages, RootsHeld, ReachHeld, OldsHeld, OldsWatched, ReachAfter;
    ghost var descs := h.descs;
    EndCycle(h, v, roots0, roots, phi, pins, MinorGen(plan), good, reach);
    SameNoPages(descs, h.descs, G0);
    CollectedValid(h, v, roots0, roots, phi, pins, MinorGen(plan), good, reach);
  }

  lemma TablesLeft(h: PageHeap, v: View, cards0: seq<bool>, roots0: seq<u64>, roots: seq<u64>, psi: map<nat, nat>,
                   pins: set<nat>, first: Plan)
    requires Shaped(h.Geo(), v) && h.Valid() && TablesAsPlanned(h.regions, Shelf(h.descs, h.freeList), G1, first.demand)
    requires forall p :: p in Shelf(h.descs, h.freeList) <==> 0 <= p < |h.descs| && h.descs[p].generation == Free
    requires CardedSoFar(h.Geo(), v, psi, G0, {}, cards0, h.cards[..])
    requires psi.Keys == ToKeep(h.Geo(), v, cards0, roots0, Some(v.descs), G0, pins)
    ensures HalfwayTables(h.Geo(), v, cards0, roots0,
                          Halfway(h.V(), h.regions, Shelf(h.descs, h.freeList), h.cards[..], roots, psi), pins, first)
  {
    hide Starts, GeoOk, WellPaired, Shelf, TablesAsPlanned, CardedSoFar, ToKeep;
  }

  /** What follows the pass from G0 to G1 of a promoting minor. */
  method AfterPromotion(h: PageHeap, roots: array<u64>, descsAtScanTime: seq<PageDesc>, ghost v: View,
                        ghost regions0: seq<AllocRegion>, ghost shelf0: seq<nat>, ghost cards0: seq<bool>,
                        ghost roots0: seq<u64>, ghost phi0: map<nat, nat>, ghost psi: map<nat, nat>,
                        ghost pins: set<nat>, ghost good0: bool, ghost reach0: Reach, ghost plan: MinorPlan,
                        ghost first: Plan)
    returns (outcome: Outcome, ghost phi: map<nat, nat>, ghost good: bool, ghost reach: Reach, ghost second: Plan)
    requires Cycling(h, v, roots0, roots[..], phi0, pins, PassGen(G0, G1), good0, reach0) && RootsApart(h, roots)
    requires plan == PlanMinor(2, h.g0PromotesSinceG1Promote) && descsAtScanTime == v.descs && |v.descs| == h.nPages
    requires PassResult(h.Geo(), v, h.V(), psi, psi.Keys, pins, G0, G1)
    requires AsPlanned(h.Geo(), v, h.V(), pins, G0, psi, first)
    requires HeapOk(h.Geo(), v) && Shaped(h.Geo(), v) && Shaped(h.Geo(), h.V())
    requires (NoPinBytes(v) && pins == {} ==> NoPinBytes(h.V()))
    requires pins == {} && first.straight && GoodHeap(h.Geo(), v, cards0, roots0) ==>
               GraphKept(h.Geo(), v, h.V(), psi, roots0, roots[..])
    requires NoLarge(v) && |regions0| == 6 && TablesAsPlanned(h.regions, Shelf(h.descs, h.freeList), G1, first.demand)
    requires CardedSoFar(h.Geo(), v, psi, G0, {}, cards0, h.cards[..])
    requires psi.Keys == ToKeep(h.Geo(), v, cards0, roots0, Some(v.descs), G0, pins)
    requires first == PlanPass(h.Geo(), v, regions0, shelf0, psi.Keys, pins, G0, G1)
    modifies h`descs, h`regions, h`bytesAlloc, h`committed, h`freeList, h`highWater, h`pinnedCells, h`liveCounts,
      h`liveTarget, h`minorsSinceG0Promote, h`g0PromotesSinceG1Promote, h.cells, h.startTable.bits, h.markTable.bits,
      h.cards, roots
    ensures h.Valid()
    ensures outcome.Done? ==>
              Cycling(h, v, roots0, roots[..], phi, pins, MinorGen(plan), good, reach) && NoPages(h.descs, G0)
    ensures outcome.Done? ==> h.minorsSinceG0Promote == plan.minors && h.g0PromotesSinceG1Promote == plan.promotes
    ensures outcome.Done? ==> good == (good0 && (plan.promoteG1 ==> second.straight))
    ensures outcome.Done? ==>
              reach == if plan.promoteG1 then ReachAfter(reach0, PassGen(G0, G1), G1, Tenured,
                  second.straight) else reach0
    ensures !outcome.Done? ==> plan.promoteG1
    ensures plan.promoteG1 ==>
              HalfwayOk(h.Geo(), v, cards0, roots0,
                  old(Halfway(h.V(), h.regions, Shelf(h.descs, h.freeList), h.cards[..], roots[..], psi)), pins,
                        v.descs, first, second)
              && ScanVerdict(h.Geo(), v,
                    old(Halfway(h.V(), h.regions, Shelf(h.descs, h.freeList), h.cards[..], roots[..], psi)), pins,
                    first,
                             second, outcome)
              && (outcome.Done? ==> second.affords)
              && (pins == {} && OneRest(v.descs, first.free) ==> second.straight)
    ensures plan.promoteG1 && !h.poisoned && Foretellable(h.Geo(), v, cards0, roots0, pins, first) ==>
              CascadeForetold(h.Geo(), v, regions0, cards0, roots0, first, outcome)
    ensures outcome.Exhausted? ==> h.poisoned || !second.affords
    ensures Ample(old(h.V()), pins) && !h.poisoned ==> outcome.Done?
  {
    hide Starts, GeoOk, MemoryOk, PagesOk, RegionsOk, HeapOk, WellPaired, NoLarge, GapFree, CardsCover, NoPinBytes,
      PinsOk, Relocated, GensBy, GraphKept, GoodHeap, EvacSeeds, CardRoots, KeptObjs, ScanSees, ScanFits, CycleReady,
      ToKeep, PlanPass, OneRest, Ample, Cycling, Compose, MinorGen, NoPages, PassResult, AsPlanned, TablesAsPlanned,
      AllTracked, ScanEnds, Shelf, PagesIn, Members, PagesTiled, CardedSoFar, ConsPagesOk, ScanVerdict, CardsClean,
      HalfwayTables, CascadeForetold, Foretellable, CountGen, RootsHeld, ReachHeld, OldsHeld, OldsWatched, ReachAfter;
    ghost var g, mid := h.Geo(), Halfway(h.V(), h.regions, Shelf(h.descs, h.freeList), h.cards[..], roots[..], psi);
    CyclingReady(h, v, roots0, roots[..], phi0, pins, PassGen(G0, G1), good0, reach0);
    ReadyPages(h);
    ShelfIsFree(h);
    TablesLeft(h, v, cards0, roots0, roots[..], psi, pins, first);
    StaleSees(g, v, h.V(), psi, psi.Keys, pins);
    ResultEmpty(g, v, h.V(), psi, psi.Keys, pins, G0, G1);
    outcome, phi, good, reach, second :=
        Graduate(h, roots, descsAtScanTime, v, roots0, phi0, pins, good0, reach0, plan);
    if plan.promoteG1 {
      assert HalfwayOk(g, v, cards0, roots0, mid, pins, v.descs, first, second);
      SecondScan(g, v, cards0, roots0, mid, pins, first, second, outcome);
      if pins == {} { SecondStraight(g, v, cards0, roots0, mid, v.descs, first, second); }
      NoPinsForetold(g, v, cards0, roots0, pins, first);
      if !h.poisoned && Foretellable(g, v, cards0, roots0, pins, first) {
        Foretelling(g, v, regions0, shelf0, cards0, roots0, mid, first, second, outcome);
      }
    }
  }

  /** What a minor keeps and carries on of what the roots and the pins reach: everything, but where
      the promotion of a generation is not straight; and which generations stay where they are. */
  function MinorReach(plan: MinorPlan, first: Plan, second: Plan, watched: bool): Reach {
    if !plan.promoteG0 then Reach(YOUNG_AND_OLD, YOUNG_AND_OLD, {G1, Tenured}, watched)
    else if !plan.promoteG1 then
      Reach(YOUNG_AND_OLD, {G1, Tenured} + Where(first.straight, G0), {G1, Tenured}, watched)
    else Reach({G1, Tenured} + Where(first.straight, G0),
               {Tenured} + Where(second.straight, G1) + Where(first.straight && second.straight, G0), {Tenured},
               watched)
  }

  function Where(b: bool, gen: Generation): set<Generation> { if b then {gen} else {} }

  lemma MinorReached(plan: MinorPlan, first: Plan, second: Plan, watched: bool, to: Generation -> Generation)
    requires forall gen: Generation :: to(gen) == gen
    ensures !plan.promoteG0 ==>
              ReachAfter(AllReach(watched), to, G0, G0, first.straight) == MinorReach(plan, first, second, watched)
    ensures plan.promoteG0 ==>
              var reach := ReachAfter(AllReach(watched), to, G0, G1, first.straight);
              MinorReach(plan, first, second, watched) ==
                if plan.promoteG1 then ReachAfter(reach, PassGen(G0, G1), G1, Tenured, second.straight) else reach
  {
  }

  /** The first pass of a minor or a full collection, G0 to G1 or within itself. */
  method YoungPass(h: PageHeap, roots: array<u64>, dest: Generation)
    returns (outcome: Outcome, ghost phi: map<nat, nat>, ghost good: bool, ghost reach: Reach, ghost first: Plan,
        ghost psi: map<nat, nat>)
    requires CycleReady(h) && RootsApart(h, roots) && (dest == G0 || dest == G1)
    modifies h`descs, h`regions, h`bytesAlloc, h`committed, h`freeList, h`highWater, h`pinnedCells, h`liveCounts,
      h`liveTarget, h.cells, h.startTable.bits, h.markTable.bits, h.cards, roots
    ensures h.Valid() && !outcome.Misread?
    ensures first == PlanPass(h.Geo(), old(h.V()), old(h.regions), Shelf(old(h.descs), old(h.freeList)),
                              ToKeep(h.Geo(), old(h.V()), old(h.cards[..]), old(roots[..]), Some(old(h.descs)), G0,
                                     old(h.pinnedCells + h.explicitPins.Keys)),
                              old(h.pinnedCells + h.explicitPins.Keys), G0, dest)
    ensures outcome.Exhausted? ==> h.poisoned || !first.affords
    ensures outcome.Done? ==>
              Cycling(h, old(h.V()), old(roots[..]), roots[..], phi, old(h.pinnedCells + h.explicitPins.Keys),
                  PassGen(G0, dest), good, reach)
    ensures outcome.Done? ==> good == (GoodHeap(h.Geo(), old(h.V()), old(h.cards[..]), old(roots[..]))
                                       && old(h.pinnedCells + h.explicitPins.Keys) == {}
                                       && (dest == G1 ==> first.straight))
    ensures outcome.Done? ==>
              reach == ReachAfter(AllReach(CardsCover(h.Geo(), old(h.V()), old(h.cards[..]))), gen => gen, G0, dest,
                                  first.straight)
    ensures outcome.Done? ==>
              PassResult(h.Geo(), old(h.V()), h.V(), psi, psi.Keys, old(h.pinnedCells + h.explicitPins.Keys), G0, dest)
    ensures outcome.Done? ==> TablesAsPlanned(h.regions, Shelf(h.descs, h.freeList), dest, first.demand)
    ensures outcome.Done? ==> CardedSoFar(h.Geo(), old(h.V()), psi, G0, {}, old(h.cards[..]), h.cards[..])
    ensures outcome.Done? ==>
              psi.Keys == ToKeep(h.Geo(), old(h.V()), old(h.cards[..]), old(roots[..]), Some(old(h.descs)), G0,
                                 old(h.pinnedCells + h.explicitPins.Keys))
    ensures outcome.Done? ==>
              AsPlanned(h.Geo(), old(h.V()), h.V(), old(h.pinnedCells + h.explicitPins.Keys), G0, psi, first)
    ensures outcome.Done? && NoPinBytes(old(h.V())) && old(h.pinnedCells + h.explicitPins.Keys) == {} ==>
              NoPinBytes(h.V())
    ensures outcome.Done? && good ==> GraphKept(h.Geo(), old(h.V()), h.V(), psi, old(roots[..]), roots[..])
    ensures Ample(old(h.V()), old(h.pinnedCells + h.explicitPins.Keys)) && !h.poisoned ==>
              outcome.Done? && Ample(h.V(), old(h.pinnedCells + h.explicitPins.Keys))
  {
    hide Starts, GeoOk, MemoryOk, PagesOk, RegionsOk, HeapOk, WellPaired, NoLarge, GapFree, CardsCover, NoPinBytes,
      PinsOk, Relocated, GensBy, GraphKept, GoodHeap, EvacSeeds, CardRoots, KeptObjs, ScanSees, ScanFits, CycleReady,
      ToKeep, PlanPass, Ample, Cycling, Compose, PassResult, AsPlanned, TablesAsPlanned, AllTracked, ScanEnds, Shelf,
      PagesIn, Members, PagesTiled, CardedSoFar, CardsClean, RootsHeld, ReachHeld, OldsHeld, OldsWatched, ReachAfter;
    ghost var g, v, cards0, roots0, pins := h.Geo(), h.V(), h.cards[..], roots[..], h.pinnedCells + h.explicitPins.Keys;
    ReadyPages(h);
    CycleStart(h, roots0);
    var descsBeforeP1 := h.descs;
    FreshSnapshot(v, ToKeep(g, v, cards0, roots0, Some(descsBeforeP1), G0, pins) - pins, G0);
    outcome, phi, good, reach, psi, first :=
      CyclePass(h, G0, dest, roots, Some(descsBeforeP1), v, roots0, Staying(AllObjs(v)), pins,
                gen => gen, PassGen(G0, dest),
                GoodHeap(g, v, cards0, roots0) && pins == {}, AllReach(CardsCover(g, v, cards0)));
  }

  /** `collect_minor`. A cascade filters the cards of its second pass by the descriptors from
      before the first, so that its card scan may come to markers. It takes them for headers, and
      stops only at one that it cannot decode or that would lead it astray; on a good heap without
      pins whose first pass is straight, that is told exactly from the heap before the call. */
  method CollectMinor(h: PageHeap, roots: array<u64>)
    returns (outcome: Outcome, ghost plan: MinorPlan, ghost phi: map<nat, nat>, ghost good: bool, ghost first: Plan,
             ghost second: Plan, ghost mid: Halfway)
    requires CycleReady(h) && RootsApart(h, roots)
    modifies h`descs, h`regions, h`bytesAlloc, h`committed, h`freeList, h`highWater, h`pinnedCells, h`liveCounts,
      h`liveTarget, h`minorsSinceG0Promote, h`g0PromotesSinceG1Promote, h.cells, h.startTable.bits, h.markTable.bits,
      h.cards, roots
    ensures h.Valid() && plan == PlanMinor(old(h.minorsSinceG0Promote), old(h.g0PromotesSinceG1Promote))
    ensures first == PlanPass(h.Geo(), old(h.V()), old(h.regions), Shelf(old(h.descs), old(h.freeList)),
                              ToKeep(h.Geo(), old(h.V()), old(h.cards[..]), old(roots[..]), Some(old(h.descs)), G0,
                                     old(h.pinnedCells + h.explicitPins.Keys)),
                              old(h.pinnedCells + h.explicitPins.Keys), G0, if plan.promoteG0 then G1 else G0)
    ensures outcome.Done? ==>
              Collected(h, old(h.V()), old(roots[..]), roots[..], phi, old(h.pinnedCells + h.explicitPins.Keys),
                  MinorGen(plan), good,
                  MinorReach(plan, first, second, CardsCover(h.Geo(), old(h.V()), old(h.cards[..]))))
    ensures outcome.Done? ==> h.minorsSinceG0Promote == plan.minors && h.g0PromotesSinceG1Promote == plan.promotes
    ensures outcome.Done? && plan.promoteG0 ==> NoPages(h.descs, G0)
    ensures outcome.Done? ==> first.affords && (plan.promoteG1 ==> second.affords)
    ensures outcome.Done? ==> good == (GoodHeap(h.Geo(), old(h.V()), old(h.cards[..]), old(roots[..]))
                                       && old(h.pinnedCells + h.explicitPins.Keys) == {}
                                       && (plan.promoteG0 ==> first.straight) && (plan.promoteG1 ==> second.straight))
    ensures plan.promoteG1 && !outcome.Exhausted? ==>
              HalfwayOk(h.Geo(), old(h.V()), old(h.cards[..]), old(roots[..]), mid,
                        old(h.pinnedCells + h.explicitPins.Keys), old(h.descs), first, second)
    ensures (plan.promoteG1 && !outcome.Exhausted? && old(h.pinnedCells + h.explicitPins.Keys) == {}
             && OneRest(old(h.descs), first.free)) ==> second.straight
    ensures outcome.Exhausted? ==>
              || h.poisoned || !first.affords
              || (plan.promoteG1 && !second.affords
                  && HalfwayOk(h.Geo(), old(h.V()), old(h.cards[..]), old(roots[..]), mid,
                               old(h.pinnedCells + h.explicitPins.Keys), old(h.descs), first, second))
    ensures outcome.Misread? ==> plan.promoteG1
    ensures plan.promoteG1 && !outcome.Exhausted? ==>
              ScanVerdict(h.Geo(), old(h.V()), mid, old(h.pinnedCells + h.explicitPins.Keys), first, second, outcome)
    ensures (plan.promoteG1 && !h.poisoned
             && Foretellable(h.Geo(), old(h.V()), old(h.cards[..]), old(roots[..]),
                   old(h.pinnedCells + h.explicitPins.Keys), first))
            ==> CascadeForetold(h.Geo(), old(h.V()), old(h.regions), old(h.cards[..]), old(roots[..]), first, outcome)
    ensures Ample(old(h.V()), old(h.pinnedCells + h.explicitPins.Keys)) && !h.poisoned ==> outcome.Done?
  {
    hide Starts, GeoOk, MemoryOk, PagesOk, RegionsOk, HeapOk, WellPaired, NoLarge, GapFree, CardsCover, NoPinBytes,
      PinsOk, Relocated, GensBy, GraphKept, GoodHeap, EvacSeeds, CardRoots, KeptObjs, ScanSees, ScanFits, CycleReady,
      ToKeep, PlanPass, OneRest, Ample, Cycling, Collected, Compose, MinorGen, NoPages, PassResult, AsPlanned,
      TablesAsPlanned, AllTracked, ScanEnds, Shelf, PagesIn, Members, PagesTiled, CardedSoFar, ConsPagesOk,
      ScanVerdict, CardsClean, HalfwayOk, HalfwayTables, CascadeForetold, Foretellable, CountGen, RootsHeld, ReachHeld,
      OldsHeld, OldsWatched, ReachAfter, MinorReach, AllReach, Overlooks;
    ghost var g, v, cards0, roots0, pins := h.Geo(), h.V(), h.cards[..], roots[..], h.pinnedCells + h.explicitPins.Keys;
    ghost var regions0, shelf0 := h.regions, Shelf(h.descs, h.freeList);
    plan := PlanMinor(h.minorsSinceG0Promote, h.g0PromotesSinceG1Promote);
    ReadyPages(h);
    CountMinor(h);
    var promoteG0 := h.minorsSinceG0Promote >= G0_PROMOTION_THRESHOLD;
    var dest := if promoteG0 then G1 else G0;
    var descsAtScanTime := h.descs;
    ghost var psi, reach;
    outcome, phi, good, reach, first, psi := YoungPass(h, roots, dest);
    second, mid := first, Halfway(h.V(), h.regions, Shelf(h.descs, h.freeList), h.cards[..], roots[..], psi);
    NoPinsForetold(g, v, cards0, roots0, pins, first);
    if !outcome.Done? { return; }
    PlannedFree(g, v, h.V(), pins, G0, psi, first);
    if promoteG0 {
      outcome, phi, good, reach, second :=
          AfterPromotion(h, roots, descsAtScanTime, v, regions0, shelf0, cards0, roots0, phi,
        psi, pins, good, reach, plan, first);
      if !outcome.Done? { return; }
    } else {
      StaysInG0(h, v, roots0, roots[..], phi, pins, good, reach, plan);
    }
    MinorReached(plan, first, second, CardsCover(g, v, cards0), gen => gen);
    EndMinor(h, v, roots0, roots[..], phi, pins, plan, good, reach);
  }

  // -- The major collection -------------------------------------------------

  function MajorGen(gen: Generation): Generation { if gen == G1 then Tenured else gen }

  /** Nothing that the roots and the pins reach is lost, and all but what G1 lost of its pointers is reached still. */
  function MajorReach(first: Plan, watched: bool): Reach {
    Reach(YOUNG_AND_OLD, {G0, Tenured} + Where(first.straight, G1), {Tenured}, watched)
  }

  lemma MajorReached(first: Plan, second: Plan, watched: bool, to: Generation -> Generation)
    requires forall gen: Generation :: to(gen) == gen
    ensures ReachAfter(ReachAfter(AllReach(watched), to, G1, Tenured, first.straight), MajorGen, G0, G0,
                       second.straight) == MajorReach(first, watched)
  {
  }

  /** `collect_major`: G1 to Tenured, then G0 within itself. On a heap that is not poisoned it runs
      out of pages exactly if one of the two passes is to, by its plan. */
  method CollectMajor(h: PageHeap, roots: array<u64>)
    returns (outcome: Outcome, ghost phi: map<nat, nat>, ghost good: bool, ghost first: Plan, ghost second: Plan,
             ghost mid: Halfway)
    requires CycleReady(h) && RootsApart(h, roots)
    modifies h`descs, h`regions, h`bytesAlloc, h`committed, h`freeList, h`highWater, h`pinnedCells, h`liveCounts,
      h`liveTarget, h`minorsSinceG0Promote, h`g0PromotesSinceG1Promote, h.cells, h.startTable.bits, h.markTable.bits,
      h.cards, roots
    ensures h.Valid() && !outcome.Misread?
    ensures first == PlanPass(h.Geo(), old(h.V()), old(h.regions), Shelf(old(h.descs), old(h.freeList)),
                              ToKeep(h.Geo(), old(h.V()), old(h.cards[..]), old(roots[..]), Some(old(h.descs)), G1,
                                     old(h.pinnedCells + h.explicitPins.Keys)),
                              old(h.pinnedCells + h.explicitPins.Keys), G1, Tenured)
    ensures outcome.Done? ==>
              Collected(h, old(h.V()), old(roots[..]), roots[..], phi, old(h.pinnedCells + h.explicitPins.Keys),
                  MajorGen, good, MajorReach(first, CardsCover(h.Geo(), old(h.V()), old(h.cards[..]))))
    ensures outcome.Done? ==>
              h.minorsSinceG0Promote == 0 && h.g0PromotesSinceG1Promote == 0 && first.affords && second.affords
    ensures outcome.Done? || (outcome.Exhausted? && !h.poisoned && first.affords) ==>
              && PassedOn(h.Geo(), old(h.V()), mid, old(h.pinnedCells + h.explicitPins.Keys), G1, Tenured, first)
              && second == NextPlan(h.Geo(), mid, Some(mid.view.descs), G0, G0,
                    old(h.pinnedCells + h.explicitPins.Keys))
    ensures outcome.Exhausted? ==> h.poisoned || !first.affords || !second.affords
    ensures outcome.Done? ==> good == (GoodHeap(h.Geo(), old(h.V()), old(h.cards[..]), old(roots[..]))
                                       && old(h.pinnedCells + h.explicitPins.Keys) == {} && first.straight)
    ensures Ample(old(h.V()), old(h.pinnedCells + h.explicitPins.Keys)) && !h.poisoned ==> outcome.Done?
  {
    hide Starts, GeoOk, MemoryOk, PagesOk, RegionsOk, HeapOk, WellPaired, NoLarge, GapFree, CardsCover, NoPinBytes,
      PinsOk, Relocated, GensBy, GraphKept, GoodHeap, EvacSeeds, CardRoots, KeptObjs, ScanSees, ScanFits, CycleReady,
      ToKeep, PlanPass, Ample, Cycling, Collected, Compose, PassResult, AsPlanned, TablesAsPlanned, AllTracked,
      ScanEnds, Shelf, PagesIn, Members, PagesTiled, CardedSoFar, CardsClean, RootsHeld, ReachHeld, OldsHeld,
      OldsWatched, ReachAfter, MajorReach, AllReach;
    ghost var g, v, cards0, roots0, pins := h.Geo(), h.V(), h.cards[..], roots[..], h.pinnedCells + h.explicitPins.Keys;
    ReadyPages(h);
    CycleStart(h, roots0);
    good := GoodHeap(g, v, cards0, roots0) && pins == {};
    ghost var psi, reach;
    var descsAtScanTime := h.descs;
    FreshSnapshot(v, ToKeep(g, v, cards0, roots0, Some(descsAtScanTime), G1, pins) - pins, G1);
    outcome, phi, good, reach, psi, first :=
      CyclePass(h, G1, Tenured, roots, Some(descsAtScanTime), v, roots0, Staying(AllObjs(v)), pins,
                gen => gen, MajorGen, good, AllReach(CardsCover(g, v, cards0)));
    second, mid := first, Halfway(h.V(), h.regions, Shelf(h.descs, h.freeList), h.cards[..], roots[..], psi);
    if !outcome.Done? { return; }
    PlannedFree(g, v, h.V(), pins, G1, psi, first);
    CyclingReady(h, v, roots0, roots[..], phi, pins, MajorGen, good, reach);
    ReadyPages(h);
    var descsAfterG1 := h.descs;
    FreshSnapshot(h.V(), ToKeep(g, h.V(), h.cards[..], roots[..], Some(descsAfterG1), G0, pins) - pins, G0);
    outcome, phi, good, reach, psi, second :=
        CyclePass(h, G0, G0, roots, Some(descsAfterG1), v, roots0, phi, pins, MajorGen,
      MajorGen, good, reach);
    if !outcome.Done? { return; }
    PlannedFree(g, mid.view, h.V(), pins, G0, psi, second);
    MajorReached(first, second, CardsCover(g, v, cards0), gen => gen);
    SetCounters(h, 0, 0, v, roots0, roots[..], phi, pins, MajorGen, good, reach);
    EndCycle(h, v, roots0, roots[..], phi, pins, MajorGen, good, reach);
    CollectedValid(h, v, roots0, roots[..], phi, pins, MajorGen, good, reach);
  }

  // -- The full collection --------------------------------------------------

  function FullGen(gen: Generation): Generation { if gen == Free then Free else Tenured }

  /** What a seed of the mark has become is what a root points to. */
  lemma SeedFollows(g: Geometry, v: View, gen: Generation, phi: map<nat, nat>, roots0: seq<u64>, roots: seq<u64>,
                    s: nat)
    requires GeoOk(g) && InRange(g, phi) && RootsTracked(g, phi, roots0, roots)
    requires s in SeedCells(g, v, gen, WordsOf(roots0)) && s in phi
    ensures phi[s] in RootCells(g, roots)
  {
    hide Tracked, WordImage;
    var w :| w in WordsOf(roots0) && Follows(g, v, gen, w) && CellOf(g, w) == s;
    var i :| 0 <= i < |roots0| && roots0[i] == w;
    assert Tracked(g, phi, w, roots[i]);
    FollowsIn(g, v, gen, w);
    TrackedTarget(g, phi, w, roots[i]);
  }

  lemma TrackedTarget(g: Geometry, phi: map<nat, nat>, w: u64, w': u64)
    requires GeoOk(g) && InRange(g, phi) && Tracked(g, phi, w, w') && InHeap(g, w) && CellOf(g, w) in phi
    ensures InHeap(g, w') && CellOf(g, w') == phi[CellOf(g, w)]
  {
    ImageTarget(g, phi, w, w');
  }

  /** Where the mark has followed a field of an object of its own generation, that field points to
      what its target has become. */
  lemma EdgeFollows(g: Geometry, v: View, w: View, phi: map<nat, nat>, gen: Generation, straight: bool, s: nat,
                    t: nat)
    requires GeoOk(g) && HeapOk(g, v) && PassResult(g, v, w, phi, phi.Keys, {}, gen, gen)
    requires FieldsTracked(g, v, w, phi, phi.Keys, {}, gen, gen, straight)
    requires s in phi && s / PAGE_CELLS < |v.descs| && GenAt(v, s) == gen && t in phi && Edge(g, v, gen, s, t)
    ensures Points(g, w, phi[s], phi[t])
  {
    hide Tracked, SameShape, Follows, WordImage, IsPtrOff, SizeOf;
    var i: nat :| EdgeAt(g, v, gen, s, i, t);
    assert InPlace(g, v, w, {}, gen, gen, {}, s, phi[s]);
    ShapeFit(g, v, w, s, phi[s]);
    OffsetFits(g, v, s, i);
    ShapeOffsets(g, v, w, s, phi[s], i);
    assert Tended(g, v, phi.Keys, {}, gen, gen, straight, s, i);
    FollowsIn(g, v, gen, Field(v, s, i));
    TrackedTarget(g, phi, Field(v, s, i), Field(w, phi[s], i));
    assert PointsAt(g, w, phi[s], i, phi[t]);
  }

  lemma NoSeeds(g: Geometry, v: View, roots: seq<u64>)
    requires Shaped(g, v)
    ensures EvacSeeds(g, v, Tenured, roots, {}, {}) == SeedCells(g, v, Tenured, WordsOf(roots))
  {
    assert WordsAt(v, {}) == {} && CrossPinPtrs(g, v, {}, Tenured) == {};
    assert SeedCells(g, v, Tenured, {}) == {};
  }

  /** Everything left is reached from the roots. */
  ghost predicate AllReachedFrom(g: Geometry, v: View, roots: seq<u64>) {
    forall x | x in AllObjs(v) :: ReachedFrom(g, v, roots, x)
  }

  /** A pass within Tenured from the roots alone, with nothing but Tenured objects and no pins, leaves
      only what the roots reach, in whatever state the heap is. */
  lemma FullExact(g: Geometry, u: View, w: View, cards: seq<bool>, roots: seq<u64>, roots': seq<u64>,
                  psi: map<nat, nat>, straight: bool)
    requires HeapOk(g, u) && Shaped(g, u) && (forall x | x in AllObjs(u) :: GenAt(u, x) == Tenured)
    requires psi.Keys == ToKeep(g, u, cards, roots, None, Tenured, {})
    requires PassResult(g, u, w, psi, psi.Keys, {}, Tenured, Tenured)
    requires LedOn(g, u, w, psi, psi.Keys, {}, Tenured, Tenured, straight, roots, roots')
    ensures AllReachedFrom(g, w, roots')
  {
    hide HeapOk, EvacSeeds, PassResult, FieldsTracked, RootsTracked, ReachedFrom, IsPath, Points, Edge, Tended,
      SeedCells, RootCells, Reachable, Follows;
    var seeds := SeedCells(g, u, Tenured, WordsOf(roots));
    NoSeeds(g, u, roots);
    ResultValues(g, u, w, psi, {}, Tenured, Tenured);
    forall x | x in AllObjs(w) ensures ReachedFrom(g, w, roots', x) {
      var s :| s in psi && psi[s] == x;
      LeftIsReached(g, u, w, psi, roots, roots', seeds, straight, s);
    }
  }

  lemma LeftIsReached(g: Geometry, u: View, w: View, psi: map<nat, nat>, roots: seq<u64>, roots': seq<u64>,
                      seeds: set<nat>, straight: bool, c: nat)
    requires HeapOk(g, u) && Shaped(g, u) && PassResult(g, u, w, psi, psi.Keys, {}, Tenured, Tenured)
    requires LedOn(g, u, w, psi, psi.Keys, {}, Tenured, Tenured, straight, roots, roots')
    requires seeds == SeedCells(g, u, Tenured, WordsOf(roots)) && Reachable(g, u, Tenured, seeds, c) && c in psi
    requires forall s | s in AllObjs(u) && Reachable(g, u, Tenured, seeds, s) :: s in psi
    ensures ReachedFrom(g, w, roots', psi[c])
  {
    hide HeapOk, PassResult, FieldsTracked, RootsTracked, ReachedFrom, Points, Edge, Tended, SeedCells, RootCells;
    var inside := set s | s in psi && s / PAGE_CELLS < |u.descs| && GenAt(u, s) == Tenured
        && ReachedFrom(g, w, roots', psi[s])
                          && Reachable(g, u, Tenured, seeds, s);
    forall s | s in seeds ensures s in inside {
      SeedIsObj(g, u, Tenured, WordsOf(roots), s);
      ReachSeed(g, u, Tenured, seeds, s);
      SeedFollows(g, u, Tenured, psi, roots, roots', s);
      ReachedRoot(g, w, roots', psi[s]);
    }
    forall s, t | s in inside && Edge(g, u, Tenured, s, t) ensures t in inside {
      EdgeIsObj(g, u, Tenured, s, t);
      ReachStep(g, u, Tenured, seeds, s, t);
      EdgeFollows(g, u, w, psi, Tenured, straight, s, t);
      ReachedNext(g, w, roots', psi[s], psi[t]);
    }
    var path :| IsPath(g, u, Tenured, seeds, path) && path[|path| - 1] == c;
    ReachInside(g, u, Tenured, seeds, inside, path);
  }

  lemma ReachedSansPins(g: Geometry, u: View, w: View, roots: seq<u64>)
    requires PinBytesOnly(u, w) && AllReachedFrom(g, u, roots)
    ensures AllReachedFrom(g, w, roots)
  {
    assert AllObjs(w) == AllObjs(u);
    hide Points;
    forall x | x in AllObjs(w) ensures ReachedFrom(g, w, roots, x) {
      var path :| Chain(g, u, roots, path) && path[|path| - 1] == x;
      forall k | 0 <= k < |path| - 1 ensures Points(g, w, path[k], path[k + 1]) {
        PointsSansPins(g, u, w, path[k], path[k + 1]);
      }
      assert Chain(g, w, roots, path);
    }
  }

  lemma PointsSansPins(g: Geometry, u: View, w: View, s: nat, t: nat)
    requires PinBytesOnly(u, w) && Points(g, u, s, t)
    ensures Points(g, w, s, t)
  {
    var i: nat :| PointsAt(g, u, s, i, t);
    assert PointsAt(g, w, s, i, t);
  }

  lemma AllTenured(h: PageHeap, v: View, phi: map<nat, nat>, to: Generation -> Generation, pins: set<nat>)
    requires Relocated(h.Geo(), v, h.V(), phi, pins) && GensBy(v, h.V(), phi, to)
    requires forall gen: Generation :: to(gen) == FullGen(gen)
    ensures forall x | x in AllObjs(h.V()) :: GenAt(h.V(), x) == Tenured
  {
    hide Starts;
    var g, w := h.Geo(), h.V();
    forall x | x in AllObjs(w) ensures GenAt(w, x) == Tenured {
      var s :| s in phi && phi[s] == x;
      ShapeFit(g, v, w, s, x);
    }
  }

  /** Without a card scan nothing is misread, and in the last pass none is needed. */
  lemma NoScan(h: PageHeap, v: View, roots0: seq<u64>, roots: seq<u64>, phi: map<nat, nat>, pins: set<nat>,
               to: Generation -> Generation, good: bool, reach: Reach, move: set<nat>)
    requires Cycling(h, v, roots0, roots, phi, pins, to, good, reach) && forall gen: Generation ::
        to(gen) == FullGen(gen)
    ensures ScanFits(None, h.V(), move, Tenured) && ScanSees(h.V(), None, Tenured)
    ensures forall x | x in AllObjs(h.V()) :: GenAt(h.V(), x) == Tenured
  {
    hide Starts, CycleReady, Relocated, GensBy, GraphKept, GoodHeap, PinsFollow, RootsHeld, ReachHeld, OldsHeld,
      OldsWatched, ReachAfter;
    AllTenured(h, v, phi, to, pins);
  }

  lemma SameGens(descs: seq<PageDesc>, w: View)
    requires exists v: View :: v.descs == descs && PinBytesOnly(v, w)
    ensures |w.descs| == |descs| && forall p | 0 <= p < |descs| :: w.descs[p].generation == descs[p].generation
  {
  }

  lemma TenuredNow(h: PageHeap)
    requires CycleReady(h)
    ensures HeapOk(h.Geo(), h.V()) && Shaped(h.Geo(), h.V())
  {
    hide Starts, GeoOk, MemoryOk, PagesOk, RegionsOk, HeapOk, NoLarge, PinsOk, CardsClean, WellPaired;
  }

  method EndFull(h: PageHeap, ghost v: View, ghost roots0: seq<u64>, ghost roots: seq<u64>, ghost phi: map<nat, nat>,
                 ghost pins: set<nat>, ghost good: bool, ghost reach: Reach)
    requires Cycling(h, v, roots0, roots, phi, pins, FullGen, good, reach) && NoPages(h.descs, G0)
        && NoPages(h.descs, G1)
    requires pins == {} ==> AllReachedFrom(h.Geo(), h.V(), roots)
    modifies h`descs, h`pinnedCells, h.cards
    ensures h.Valid() && Collected(h, v, roots0, roots, phi, pins, FullGen, good, reach)
    ensures NoPages(h.descs, G0) && NoPages(h.descs, G1)
    ensures pins == {} ==> AllReachedFrom(h.Geo(), h.V(), roots)
  {
    hide Starts, GeoOk, MemoryOk, PagesOk, RegionsOk, HeapOk, WellPaired, NoLarge, AllReachedFrom, Cycling, Collected,
      CardsTrue, PinBytesOnly, NoPages, RootsHeld, ReachHeld, OldsHeld, OldsWatched, ReachAfter;
    ghost var u := h.V();
    EndCycle(h, v, roots0, roots, phi, pins, FullGen, good, reach);
    SameGens(u.descs, h.V());
    SameNoPages(u.descs, h.descs, G0);
    SameNoPages(u.descs, h.descs, G1);
    if pins == {} { ReachedSansPins(h.Geo(), u, h.V(), roots); }
    CollectedValid(h, v, roots0, roots, phi, pins, FullGen, good, reach);
  }

  /** The second pass, G1 to Tenured, filtered by the descriptors after the first. */
  method FullSecond(h: PageHeap, roots: array<u64>, ghost v: View, ghost roots0: seq<u64>, ghost phi0: map<nat, nat>,
                    ghost psi: map<nat, nat>, ghost pins: set<nat>, ghost good0: bool, ghost reach0: Reach,
                    ghost first: Plan, ghost cards0: seq<bool>)
    returns (outcome: Outcome, ghost phi: map<nat, nat>, ghost good: bool, ghost reach: Reach, ghost second: Plan,
             ghost psi2: map<nat, nat>)
    requires Cycling(h, v, roots0, roots[..], phi0, pins, PassGen(G0, G1), good0, reach0) && RootsApart(h, roots)
    requires pins == {} && first.straight && GoodHeap(h.Geo(), v, cards0, roots0) ==>
               GraphKept(h.Geo(), v, h.V(), psi, roots0, roots[..])
    requires PassResult(h.Geo(), v, h.V(), psi, psi.Keys, pins, G0, G1)
    requires AsPlanned(h.Geo(), v, h.V(), pins, G0, psi, first)
    requires NoPinBytes(v) && pins == {} ==> NoPinBytes(h.V())
    modifies h`descs, h`regions, h`bytesAlloc, h`committed, h`freeList, h`highWater, h`pinnedCells, h`liveCounts,
      h`liveTarget, h.cells, h.startTable.bits, h.markTable.bits, h.cards, roots
    ensures h.Valid() && !outcome.Misread?
    ensures HalfwayOk(h.Geo(), v, cards0, roots0,
        old(Halfway(h.V(), h.regions, Shelf(h.descs, h.freeList), h.cards[..], roots[..], psi)), pins,
                      old(h.descs), first, second)
    ensures outcome.Exhausted? ==> h.poisoned || !second.affords
    ensures outcome.Done? ==>
              PassedOn(h.Geo(), old(h.V()), Halfway(h.V(), h.regions, Shelf(h.descs, h.freeList), h.cards[..],
                  roots[..], psi2),
                       pins, G1, Tenured, second)
    ensures outcome.Done? ==>
              Cycling(h, v, roots0, roots[..], phi, pins, FullGen, good, reach) && good == (good0 && second.straight)
    ensures outcome.Done? ==> reach == ReachAfter(reach0, PassGen(G0, G1), G1, Tenured, second.straight)
    ensures outcome.Done? ==> NoPages(h.descs, G0) && NoPages(h.descs, G1) && second.affords
    ensures Ample(old(h.V()), pins) && !h.poisoned ==> outcome.Done? && Ample(h.V(), pins)
  {
    hide Starts, GeoOk, MemoryOk, PagesOk, RegionsOk, HeapOk, WellPaired, NoLarge, GapFree, CardsCover, NoPinBytes,
      PinsOk, Relocated, GensBy, GraphKept, GoodHeap, EvacSeeds, CardRoots, KeptObjs, ScanSees, ScanFits, CycleReady,
      ToKeep, PlanPass, Ample, Cycling, Compose, PassResult, AsPlanned, TablesAsPlanned, AllTracked, ScanEnds, Shelf,
      PagesIn, Members, PagesTiled, CardedSoFar, CardsClean, NoPages, RootsHeld, ReachHeld, OldsHeld, OldsWatched,
      ReachAfter;
    psi2 := psi;
    ghost var g, u := h.Geo(), h.V();
    CyclingReady(h, v, roots0, roots[..], phi0, pins, PassGen(G0, G1), good0, reach0);
    ReadyPages(h);
    ResultEmpty(g, v, u, psi, psi.Keys, pins, G0, G1);
    var descsBeforeP2 := h.descs;
    FreshSnapshot(u, ToKeep(g, u, h.cards[..], roots[..], Some(descsBeforeP2), G1, pins) - pins, G1);
    outcome, phi, good, reach, psi2, second :=
        CyclePass(h, G1, Tenured, roots, Some(descsBeforeP2), v, roots0, phi0, pins,
                                                  PassGen(G0, G1), FullGen, good0, reach0);
    if !outcome.Done? { return; }
    PlannedFree(g, u, h.V(), pins, G1, psi2, second);
    ResultEmpty(g, u, h.V(), psi2, psi2.Keys, pins, G1, Tenured);
    StaysEmpty(g, u, h.V(), psi2, psi2.Keys, pins, G1, Tenured, G0);
  }

  /** The third pass, Tenured within itself, from the roots alone. */
  method FullThird(h: PageHeap, roots: array<u64>, ghost v: View, ghost roots0: seq<u64>, ghost phi0: map<nat, nat>,
                   ghost pins: set<nat>, ghost good0: bool, ghost reach0: Reach)
    returns (outcome: Outcome, ghost phi: map<nat, nat>, ghost good: bool, ghost reach: Reach, ghost third: Plan)
    requires Cycling(h, v, roots0, roots[..], phi0, pins, FullGen, good0, reach0) && RootsApart(h, roots)
    requires NoPages(h.descs, G0) && NoPages(h.descs, G1) && reach0.still == {Tenured}
    modifies h`descs, h`regions, h`bytesAlloc, h`committed, h`freeList, h`highWater, h`pinnedCells, h`liveCounts,
      h`liveTarget, h.cells, h.startTable.bits, h.markTable.bits, h.cards, roots
    ensures h.Valid() && !outcome.Misread?
    ensures outcome.Done? ==> Cycling(h, v, roots0, roots[..], phi, pins, FullGen, good, reach) && good == good0
    ensures outcome.Done? ==> reach == ReachAfter(reach0, FullGen, Tenured, Tenured, third.straight)
    ensures outcome.Done? ==> NoPages(h.descs, G0) && NoPages(h.descs, G1)
    ensures outcome.Done? && pins == {} ==> AllReachedFrom(h.Geo(), h.V(), roots[..])
    ensures third == PlanPass(h.Geo(), old(h.V()), old(h.regions), Shelf(old(h.descs), old(h.freeList)),
                              ToKeep(h.Geo(), old(h.V()), old(h.cards[..]), old(roots[..]), None, Tenured, pins), pins,
                              Tenured, Tenured)
    ensures outcome.Exhausted? ==> h.poisoned || !third.affords
    ensures outcome.Done? ==> third.affords
    ensures Ample(old(h.V()), pins) && !h.poisoned ==> outcome.Done?
  {
    hide Starts, GeoOk, MemoryOk, PagesOk, RegionsOk, HeapOk, WellPaired, NoLarge, GapFree, CardsCover, NoPinBytes,
      PinsOk, Relocated, GensBy, GraphKept, GoodHeap, EvacSeeds, CardRoots, KeptObjs, ScanSees, ScanFits, CycleReady,
      ToKeep, PlanPass, Ample, Cycling, Compose, PassResult, AsPlanned, TablesAsPlanned, AllTracked, ScanEnds, Shelf,
      PagesIn, Members, PagesTiled, CardedSoFar, CardsClean, NoPages, AllReachedFrom, RootsHeld, ReachHeld, OldsHeld,
      OldsWatched, ReachAfter;
    ghost var g, u, cards, roots1 := h.Geo(), h.V(), h.cards[..], roots[..];
    CyclingReady(h, v, roots0, roots1, phi0, pins, FullGen, good0, reach0);
    ReadyPages(h);
    NoScan(h, v, roots0, roots1, phi0, pins, FullGen, good0, reach0,
        ToKeep(g, u, cards, roots1, None, Tenured, pins) - pins);
    TenuredNow(h);
    ghost var psi;
    outcome, phi, good, reach, psi, third := CyclePass(h, Tenured, Tenured, roots, None, v, roots0, phi0, pins, FullGen,
      FullGen, good0, reach0);
    if !outcome.Done? { return; }
    PlannedFree(g, u, h.V(), pins, Tenured, psi, third);
    StaysEmpty(g, u, h.V(), psi, psi.Keys, pins, Tenured, Tenured, G0);
    StaysEmpty(g, u, h.V(), psi, psi.Keys, pins, Tenured, Tenured, G1);
    LedAlong(g, u, h.V(), psi, psi.Keys, pins, Tenured, Tenured, third.straight, CardRoots(g, u, cards, None, Tenured),
      roots1, roots[..]);
    if pins == {} { FullExact(g, u, h.V(), cards, roots1, roots[..], psi, third.straight); }
  }

  lemma ResultValues(g: Geometry, v: View, w: View, phi: map<nat, nat>, pins: set<nat>, from: Generation,
                     dest: Generation)
    requires PassResult(g, v, w, phi, phi.Keys, pins, from, dest)
    ensures phi.Values == AllObjs(w)
  {
    hide InPlace;
  }

  /** What a full collection keeps of what the roots and the pins reach they reach still. */
  function FullReach(first: Plan, second: Plan, watched: bool): Reach {
    var gens := {Tenured} + Where(second.straight, G1) + Where(first.straight && second.straight, G0);
    Reach(gens, gens, {}, watched)
  }

  lemma FullReached(first: Plan, second: Plan, third: Plan, watched: bool, to: Generation -> Generation)
    requires forall gen: Generation :: to(gen) == gen
    ensures var reach := ReachAfter(ReachAfter(AllReach(watched), to, G0, G1, first.straight), PassGen(G0, G1), G1,
                           Tenured, second.straight);
      reach.still == {Tenured}
      && ReachAfter(reach, FullGen, Tenured, Tenured, third.straight) == FullReach(first, second, watched)
  {
  }

  /** `collect_full`: G0 to G1, G1 to Tenured, then Tenured within itself from the
      caller's roots alone. Afterwards the young generations have no pages, and without
      pins nothing is left that the roots do not reach, in whatever state the heap was:
      what cards kept alive in the first two passes does not survive the third. On a heap
      that is not poisoned it runs out of pages exactly if one of the three passes is to,
      by its plan. */
  method CollectFull(h: PageHeap, roots: array<u64>)
    returns (outcome: Outcome, ghost phi: map<nat, nat>, ghost good: bool, ghost first: Plan, ghost second: Plan,
             ghost mid: Halfway, ghost third: Plan, ghost late: Halfway)
    requires CycleReady(h) && RootsApart(h, roots)
    modifies h`descs, h`regions, h`bytesAlloc, h`committed, h`freeList, h`highWater, h`pinnedCells, h`liveCounts,
      h`liveTarget, h`minorsSinceG0Promote, h`g0PromotesSinceG1Promote, h.cells, h.startTable.bits, h.markTable.bits,
      h.cards, roots
    ensures h.Valid() && !outcome.Misread?
    ensures first == PlanPass(h.Geo(), old(h.V()), old(h.regions), Shelf(old(h.descs), old(h.freeList)),
                              ToKeep(h.Geo(), old(h.V()), old(h.cards[..]), old(roots[..]), Some(old(h.descs)), G0,
                                     old(h.pinnedCells + h.explicitPins.Keys)),
                              old(h.pinnedCells + h.explicitPins.Keys), G0, G1)
    ensures outcome.Done? ==>
              Collected(h, old(h.V()), old(roots[..]), roots[..], phi, old(h.pinnedCells + h.explicitPins.Keys),
                  FullGen, good,
                  FullReach(first, second, CardsCover(h.Geo(), old(h.V()), old(h.cards[..]))))
    ensures outcome.Done? ==> NoPages(h.descs, G0) && NoPages(h.descs, G1)
    ensures outcome.Done? && old(h.pinnedCells + h.explicitPins.Keys) == {} ==>
              AllReachedFrom(h.Geo(), h.V(), roots[..])
    ensures outcome.Done? ==>
              h.minorsSinceG0Promote == 0 && h.g0PromotesSinceG1Promote == 0 && first.affords && second.affords
                  && third.affords
    ensures outcome.Done? ==> good == (GoodHeap(h.Geo(), old(h.V()), old(h.cards[..]), old(roots[..]))
                                       && old(h.pinnedCells + h.explicitPins.Keys) == {} && first.straight
                                             && second.straight)
    ensures outcome.Done? || (outcome.Exhausted? && !h.poisoned && first.affords) ==>
              HalfwayOk(h.Geo(), old(h.V()), old(h.cards[..]), old(roots[..]), mid,
                        old(h.pinnedCells + h.explicitPins.Keys), mid.view.descs, first, second)
    ensures outcome.Done? || (outcome.Exhausted? && !h.poisoned && first.affords && second.affords) ==>
              && PassedOn(h.Geo(), mid.view, late, old(h.pinnedCells + h.explicitPins.Keys), G1, Tenured, second)
              && third == NextPlan(h.Geo(), late, None, Tenured, Tenured, old(h.pinnedCells + h.explicitPins.Keys))
    ensures outcome.Exhausted? ==> h.poisoned || !first.affords || !second.affords || !third.affords
    ensures outcome.Done? && old(h.pinnedCells + h.explicitPins.Keys) == {} && OneRest(old(h.descs), first.free) ==>
              second.straight
    ensures Ample(old(h.V()), old(h.pinnedCells + h.explicitPins.Keys)) && !h.poisoned ==> outcome.Done?
  {
    hide Starts, GeoOk, MemoryOk, PagesOk, RegionsOk, HeapOk, WellPaired, NoLarge, GapFree, CardsCover, NoPinBytes,
      PinsOk, Relocated, GensBy, GraphKept, GoodHeap, EvacSeeds, CardRoots, KeptObjs, ScanSees, ScanFits, CycleReady,
      ToKeep, PlanPass, OneRest, Ample, Cycling, Collected, Compose, PassResult, AsPlanned, TablesAsPlanned,
      AllTracked, ScanEnds, Shelf, PagesIn, Members, PagesTiled, CardedSoFar, CardsClean, NoPages, AllReachedFrom,
      HalfwayOk, PassedOn, RootsHeld, ReachHeld, OldsHeld, OldsWatched, ReachAfter;
    ghost var g, v, cards0, roots0, pins := h.Geo(), h.V(), h.cards[..], roots[..], h.pinnedCells + h.explicitPins.Keys;
    ghost var psi, psi2, reach, watched;
    ReadyPages(h);
    watched := CardsCover(g, v, cards0);
    outcome, phi, good, reach, first, psi := YoungPass(h, roots, G1);
    second, mid := first, Halfway(h.V(), h.regions, Shelf(h.descs, h.freeList), h.cards[..], roots[..], psi);
    third, late := second, mid;
    if !outcome.Done? { return; }
    outcome, phi, good, reach, second, psi2 :=
        FullSecond(h, roots, v, roots0, phi, psi, pins, good, reach, first, cards0);
    third, late := second, Halfway(h.V(), h.regions, Shelf(h.descs, h.freeList), h.cards[..], roots[..], psi2);
    if !outcome.Done? { return; }
    if pins == {} { SecondStraight(g, v, cards0, roots0, mid, mid.view.descs, first, second); }
    HalfwayPlanned(g, v, cards0, roots0, mid, pins, mid.view.descs, first, second);
    FullReached(first, second, first, watched, gen => gen);
    outcome, phi, good, reach, third := FullThird(h, roots, v, roots0, phi, pins, good, reach);
    if !outcome.Done? { return; }
    FullReached(first, second, third, watched, gen => gen);
    SetCounters(h, 0, 0, v, roots0, roots[..], phi, pins, FullGen, good, reach);
    EndFull(h, v, roots0, roots[..], phi, pins, good, reach);
  }
}
