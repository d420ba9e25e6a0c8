/** What a whole evacuation pass leaves. */
module PassResults {
  import opened Bits
  import opened Options
  import opened Bitmaps
  import opened Pages
  import opened Objects
  import opened PageHeaps
  import opened Marking
  import opened Cards
  import opened Moves
  import opened Rewrite
  import opened Demands
  import opened Copying
  import opened Reclaiming
  import opened EvacMarking
  import opened Graphs
  import opened Placement
  import opened PassGraph
  import opened PassSteps
  import opened PassStates
  import opened BackPointers
  import opened Following
  import opened Misreads
  import opened PassChunks
  import opened Plans

  // -- The pass as a whole --------------------------------------------------

  /** From `v` to `w`, the objects of `live` were moved by `phi` and nothing else is left:
      what was in `from` is in `dest`, everything else and every pinned object stayed. */
  ghost predicate PassResult(g: Geometry, v: View, w: View, phi: map<nat, nat>, live: set<nat>, pins: set<nat>,
                             from: Generation, dest: Generation)
  {
    && Shaped(g, v) && Shaped(g, w) && phi.Keys == live && InRange(g, phi) && Injective(phi)
    && (forall s | s in phi :: InPlace(g, v, w, pins, from, dest, {}, s, phi[s]))
    && AllObjs(w) == phi.Values
    && (forall p | 0 <= p < |v.descs| && v.descs[p].generation != Free && v.descs[p].generation != from ::
          w.descs[p].generation == v.descs[p].generation)
    && Emptied(w, from, dest, {}) && OnlyIntoDest(v, w, dest)
  }

  lemma ResultShapes(g: Geometry, v: View, w: View, phi: map<nat, nat>, live: set<nat>, pins: set<nat>,
                     from: Generation, dest: Generation)
    requires PassResult(g, v, w, phi, live, pins, from, dest)
    ensures Shaped(g, v) && Shaped(g, w) && phi.Keys == live && InRange(g, phi)
  {
    hide InPlace;
  }

  lemma PassEnd(g: Geometry, vs: View, cardsS: seq<bool>, w: View, cards: seq<bool>, phi: map<nat, nat>, live: set<nat>,
                pins: set<nat>, from: Generation, dest: Generation)
    requires PassState(g, vs, cardsS, w, cards, phi, live, pins, from, dest, {})
    ensures PassResult(g, vs, w, phi, live, pins, from, dest)
  {
    hide SameShape, HeapOk, CardedSoFar, TiledSoFar;
    forall x | x in phi.Values ensures x in AllObjs(w) {
      var s :| s in phi && phi[s] == x;
      assert InPlace(g, vs, w, pins, from, dest, {}, s, x);
      ShapeFit(g, vs, w, s, x);
    }
  }

  // -- Pin bytes do not matter to any of this -------------------------------

  lemma ShapeSansPins(g: Geometry, v: View, vs: View, w: View, s: nat, t: nat)
    requires PinBytesOnly(v, vs) && |v.starts| == |v.cells| && |w.starts| == |w.cells|
    ensures SameShape(g, v, w, s, t) <==> SameShape(g, vs, w, s, t)
    ensures IsObj(v, s) <==> IsObj(vs, s)
  {
  }

  lemma ResultSansPins(g: Geometry, v: View, vs: View, w: View, phi: map<nat, nat>, live: set<nat>, pins: set<nat>,
                       from: Generation, dest: Generation)
    requires PinBytesOnly(v, vs) && Shaped(g, v) && PassResult(g, vs, w, phi, live, pins, from, dest)
    ensures PassResult(g, v, w, phi, live, pins, from, dest)
  {
    hide SameShape;
    forall s | s in phi ensures InPlace(g, v, w, pins, from, dest, {}, s, phi[s]) {
      ShapeSansPins(g, v, vs, w, s, phi[s]);
      ShapeFit(g, vs, w, s, phi[s]);
    }
  }

  lemma IsoSansPins(g: Geometry, v: View, vs: View, w: View, phi: map<nat, nat>)
    requires GeoOk(g) && PinBytesOnly(v, vs) && Shaped(g, v) && Iso(g, vs, w, phi)
    ensures Iso(g, v, w, phi)
  {
    hide SameShape, WordImage, FieldImage;
    forall s | s in phi ensures ObjImage(g, v, w, phi, s) {
      assert ObjImage(g, vs, w, phi, s);
      ShapeSansPins(g, v, vs, w, s, phi[s]);
      ShapeOffsets(g, vs, w, s, phi[s], 0);
      ShapeFit(g, v, w, s, phi[s]);
      forall i: nat | i < SizeOf(g, v, s)
        ensures FieldImage(g, phi, IsPtrOff(g, v, s, i), Field(v, s, i), Field(w, phi[s], i)) {
        ShapeOffsets(g, vs, w, s, phi[s], i);
        assert FieldImage(g, phi, IsPtrOff(g, vs, s, i), Field(vs, s, i), Field(w, phi[s], i));
      }
    }
  }

  lemma ClosedSansPins(g: Geometry, v: View, vs: View, live: set<nat>)
    requires PinBytesOnly(v, vs) && Shaped(g, v) && Shaped(g, vs) && ClosedHeap(g, v, live)
    ensures ClosedHeap(g, vs, live)
  {
    forall s | s in live
      ensures IsObj(vs, s) && s + SizeOf(g, vs, s) <= |vs.cells|
      ensures forall i: nat | i < SizeOf(g, vs, s) && IsPtrOff(g, vs, s, i) :: ValidField(g, vs, live, Field(vs, s, i))
    {
      forall i: nat | i < SizeOf(g, vs, s) && IsPtrOff(g, vs, s, i) ensures ValidField(g, vs, live, Field(vs, s, i)) {
        assert ValidField(g, v, live, Field(v, s, i));
      }
    }
  }

  lemma CoveredSansPins(g: Geometry, v: View, vs: View, visited: set<nat>, pins: set<nat>, from: Generation)
    requires PinBytesOnly(v, vs) && Shaped(g, v) && Shaped(g, vs) && OutsideCovered(g, v, visited, pins, from)
    ensures OutsideCovered(g, vs, visited, pins, from)
  {
    forall s: nat | s < |vs.starts| && IsObj(vs, s) && GenAt(vs, s) != from && s !in pins
      ensures s + SizeOf(g, vs, s) <= |vs.cells| && ObjCovered(g, vs, visited, from, s)
    {
      assert IsObj(v, s) && ObjCovered(g, v, visited, from, s);
      forall i: nat | i < SizeOf(g, vs, s) && IsPtrOff(g, vs, s, i) && IntoGen(g, vs, from, Field(vs, s, i))
        ensures s + i in visited {
        assert IntoGen(g, v, from, Field(v, s, i));
      }
    }
  }

  lemma ReadySansPins(g: Geometry, v: View, vs: View, cards: seq<bool>, scan: Option<seq<PageDesc>>, roots: seq<u64>,
                      pins: set<nat>, from: Generation)
    requires PinBytesOnly(v, vs) && Shaped(g, vs) && GraphReady(g, v, cards, scan, roots, pins, from)
    ensures GraphReady(g, vs, cards, scan, roots, pins, from)
  {
    hide OutsideCovered, ClosedHeap, CardRoots, EvacSeeds;
    SameSeeds(g, v, vs, from, roots, cards, scan, pins);
    assert AllObjs(vs) == AllObjs(v);
    ClosedSansPins(g, v, vs, AllObjs(v));
    CoveredSansPins(g, v, vs, CardRoots(g, v, cards, scan, from), pins, from);
    forall i | 0 <= i < |roots| ensures ValidField(g, vs, AllObjs(vs), roots[i]) {
      assert ValidField(g, v, AllObjs(v), roots[i]);
    }
  }

  /** The state a whole pass leaves. `live` are the objects it kept. */
  ghost predicate PassDone(h: PageHeap, from: Generation, dest: Generation, v: View, cards0: seq<bool>,
                           phi: map<nat, nat>, live: set<nat>)
    reads h, h.cells, h.startTable.bits, h.cards
  {
    && PassReady(h, from) && h.liveTarget == None
    && PassResult(h.Geo(), v, h.V(), phi, live, h.pinnedCells, from, dest)
    && CardedSoFar(h.Geo(), v, phi, from, {}, cards0, h.cards[..])
    && (NoPinBytes(v) && h.pinnedCells == {} ==> NoPinBytes(h.V()))
    && PagesTiled(h.Geo(), v, h.V(), h.pinnedCells, from)
  }

  /** Pages that were without gaps still are, but for source pages with pins. */
  ghost predicate PagesTiled(g: Geometry, v: View, w: View, pins: set<nat>, from: Generation)
    requires Shaped(g, v) && Shaped(g, w)
  {
    forall p | 0 <= p < |v.descs| && Tiled(g, v, p)
               && (v.descs[p].generation == from ==> !v.descs[p].HasPins() && p !in PagesOf(pins)) :: Tiled(g, w, p)
  }

  /** The source pages a pass gives back. */
  function GivenBack(descs: seq<PageDesc>, pins: set<nat>, from: Generation): set<nat> {
    Members(Released(descs, pins, PagesIn(descs, from)))
  }

  /** The objects that moved are where the plan put them. */
  ghost predicate AsPut(v: View, phi: map<nat, nat>, pins: set<nat>, from: Generation, at: map<nat, nat>) {
    forall s | s in phi && s / PAGE_CELLS < |v.descs| && GenAt(v, s) == from && s !in pins :: s in at && phi[s] == at[s]
  }

  /** A pass that came to its end did so as planned: the Free pages are as many as planned; objects
      are where the plan put them; on the source pages that were not given back only pinned objects
      are left, and the fields of pinned objects have followed. */
  ghost predicate AsPlanned(g: Geometry, v: View, w: View, pins: set<nat>, from: Generation, phi: map<nat, nat>,
                            plan: Plan) {
    && plan.affords && CountGen(w.descs, Free) == plan.free
    && AsPut(v, phi, pins, from, plan.demand.at)
    && FlippedOnly(w, Members(PagesIn(v.descs, from)) - GivenBack(v.descs, pins, from), pins)
    && GeoOk(g) && InRange(g, phi) && PinsFollow(g, v, w, phi, pins)
  }

  /** The regions and the free list after the pass. */
  ghost predicate TablesAsPlanned(regions: seq<AllocRegion>, shelf: seq<nat>, dest: Generation, d: Demand) {
    && HasRegion(dest, Cons) && |regions| == 6
    && d.consFill == FillOf(regions, dest, true) && d.boxedFill == FillOf(regions, dest, false)
    && d.consPage == OpenPage(regions, dest, true) && d.boxedPage == OpenPage(regions, dest, false)
    && d.others == Afresh(regions, dest) && d.shelf == shelf
  }

  lemma PassOver(h: PageHeap, from: Generation, dest: Generation, v: View, vs: View, cards0: seq<bool>,
                 phi: map<nat, nat>, live: set<nat>, closed: set<nat>, pinned: seq<(nat, bool)>)
    requires Passing(h, vs, cards0, phi, live, from, dest, {}, closed, pinned) && PinBytesOnly(v, vs)
    requires Shaped(h.Geo(), v)
    requires from != Free && dest != Free && h.liveTarget == None
    requires (forall s | s in h.explicitPins :: s in h.pinnedCells)
    requires PinnedBy(v, vs, h.pinnedCells)
    requires NoPinBytes(v) && h.pinnedCells == {} ==> NoPinBytes(h.V())
    ensures PassDone(h, from, dest, v, cards0, phi, live)
  {
    hide Starts, GeoOk, MemoryOk, PagesOk, RegionsOk, HeapOk, Placed, CardedSoFar, TiledSoFar, WellPaired, PassResult,
      NoPinBytes, PagesTiled, Sealed, SnapshotOf, Bit, NoLarge;
    var g := h.Geo();
    PlacedShape(g, vs, h.V(), phi, live, h.pinnedCells, from, dest, {});
    PassEnd(g, vs, cards0, h.V(), h.cards[..], phi, live, h.pinnedCells, from, dest);
    ResultSansPins(g, v, vs, h.V(), phi, live, h.pinnedCells, from, dest);
    CardedSansPins(g, v, vs, phi, from, cards0, h.cards[..]);
    TilesKept(g, v, vs, h.V(), h.pinnedCells, from);
  }

  lemma TilesKept(g: Geometry, v: View, vs: View, w: View, pins: set<nat>, from: Generation)
    requires Shaped(g, v) && Shaped(g, vs) && Shaped(g, w) && PinBytesOnly(v, vs) && PinnedBy(v, vs, pins)
    requires TiledSoFar(g, vs, w, from, {})
    ensures PagesTiled(g, v, w, pins, from)
  {
    hide Tiled;
    forall p | 0 <= p < |v.descs| && Tiled(g, v, p)
               && (v.descs[p].generation == from ==> !v.descs[p].HasPins() && p !in PagesOf(pins))
      ensures Tiled(g, w, p) {
      TiledSansPins(g, v, vs, p);
    }
  }

  lemma GapsKept(g: Geometry, v: View, w: View, from: Generation)
    requires Shaped(g, v) && Shaped(g, w) && NoPinBytes(v) && GapFree(g, v) && PagesTiled(g, v, w, {}, from)
    ensures GapFree(g, w)
  {
    hide Tiled;
  }

  lemma CardedSansPins(g: Geometry, v: View, vs: View, phi: map<nat, nat>, from: Generation, before: seq<bool>,
                       after: seq<bool>)
    requires PinBytesOnly(v, vs) && Shaped(g, v) && Shaped(g, vs) && CardedSoFar(g, vs, phi, from, {}, before, after)
    ensures CardedSoFar(g, v, phi, from, {}, before, after)
  {
    hide BlockCarded;
    forall s | s in phi && s < |v.starts| && GenAt(v, s) == from ensures BlockCarded(after, phi[s], SizeOf(g, v, s)) {
      assert SizeOf(g, vs, s) == SizeOf(g, v, s) && GenAt(vs, s) == from;
    }
  }

  /** The objects a pass is to keep. */
  ghost function KeptObjs(g: Geometry, v: View, from: Generation, seeds: set<nat>): set<nat> {
    set s | s in AllObjs(v) && (GenAt(v, s) != from || Reachable(g, v, from, seeds, s))
  }

  /** The objects a pass over `v` is to keep. */
  ghost function ToKeep(g: Geometry, v: View, cards: seq<bool>, roots: seq<u64>, scan: Option<seq<PageDesc>>,
                        from: Generation, pins: set<nat>): set<nat>
    requires Shaped(g, v)
  {
    KeptObjs(g, v, from, EvacSeeds(g, v, from, roots, CardRoots(g, v, cards, scan, from), pins))
  }

  lemma KeptIsObj(g: Geometry, v: View, cards: seq<bool>, roots: seq<u64>, scan: Option<seq<PageDesc>>,
                  from: Generation, pins: set<nat>)
    requires Shaped(g, v)
    ensures forall s | s in ToKeep(g, v, cards, roots, scan, from, pins) :: IsObj(v, s)
  {
    hide EvacSeeds, CardRoots, Reachable;
  }

  lemma ResultObjects(g: Geometry, v: View, w: View, phi: map<nat, nat>, live: set<nat>, pins: set<nat>,
                      from: Generation, dest: Generation)
    requires PassResult(g, v, w, phi, live, pins, from, dest)
    ensures phi.Keys <= AllObjs(v) && phi.Values == AllObjs(w)
  {
    hide SameShape;
    forall s | s in phi ensures s in AllObjs(v) {
      assert InPlace(g, v, w, pins, from, dest, {}, s, phi[s]);
      ShapeFit(g, v, w, s, phi[s]);
    }
  }

  lemma LiveIsKept(g: Geometry, v: View, vs: View, from: Generation, seeds: set<nat>, marks: seq<bool>)
    requires PinBytesOnly(v, vs) && MarkedExactly(g, vs, from, seeds, marks) && |v.starts| == |marks|
    ensures LiveSet(vs, from, marks) == KeptObjs(g, v, from, seeds)
  {
    hide Reachable, MarkInv;
    forall s ensures s in LiveSet(vs, from, marks) <==> s in KeptObjs(g, v, from, seeds) {
      if s in AllObjs(v) && GenAt(v, s) == from {
        assert s in MarkedObjs(vs, from, marks) <==> Reachable(g, vs, from, seeds, s);
        ReachSansPins(g, v, vs, from, seeds, s);
        ReachSansPins(g, vs, v, from, seeds, s);
      }
    }
  }

  lemma ReachSansPins(g: Geometry, v: View, vs: View, from: Generation, seeds: set<nat>, c: nat)
    requires PinBytesOnly(v, vs)
    ensures Reachable(g, v, from, seeds, c) ==> Reachable(g, vs, from, seeds, c)
  {
    hide Edge;
    if Reachable(g, v, from, seeds, c) {
      var path :| IsPath(g, v, from, seeds, path) && path[|path| - 1] == c;
      forall k | 0 <= k < |path| - 1 ensures Edge(g, vs, from, path[k], path[k + 1]) {
        SameEdges(g, v, vs, from, path[k], path[k + 1]);
      }
      assert IsPath(g, vs, from, seeds, path);
    }
  }

  lemma {:induction false} SamePagesIn(a: seq<PageDesc>, b: seq<PageDesc>, gen: Generation)
    requires |a| == |b| && forall p | 0 <= p < |a| :: a[p].generation == b[p].generation
    ensures PagesIn(a, gen) == PagesIn(b, gen) && CountGen(a, gen) == CountGen(b, gen)
    decreases |a|
  {
    if a != [] { SamePagesIn(a[..|a| - 1], b[..|b| - 1], gen); }
  }

  lemma PinsAreLive(v: View, pins: set<nat>, from: Generation, marks: seq<bool>, g: Geometry, roots: seq<u64>,
                    visited: set<nat>)
    requires Shaped(g, v) && PinsOk(v, pins)
    requires EvacSeeds(g, v, from, roots, visited, pins) <= MarkedObjs(v, from, marks)
    ensures forall s | s in pins :: s in LiveSet(v, from, marks)
  {
    hide SeedCells, CrossPinPtrs;
    forall s | s in pins ensures s in LiveSet(v, from, marks) {
      assert IsObj(v, s);
      if GenAt(v, s) == from { assert s in PinsIn(v, pins, from); }
    }
  }

  /** What the mark establishes for the chunk loop. */
  lemma AfterMark(h: PageHeap, v: View, cards0: seq<bool>, from: Generation, roots: seq<u64>,
                  scan: Option<seq<PageDesc>>)
    requires PassReady(h, from) && PinBytesOnly(v, h.V()) && Shaped(h.Geo(), v) && Shaped(h.Geo(), h.V())
    requires MarkedExactly(h.Geo(), h.V(), from,
               EvacSeeds(h.Geo(), h.V(), from, roots, CardRoots(h.Geo(), h.V(), cards0, scan, from), h.pinnedCells),
                   h.markTable.Map())
    ensures h.Inv() && HeapOk(h.Geo(), h.V()) && NoLarge(h.V()) && PinsOk(h.V(), h.pinnedCells) && GeoOk(h.Geo())
    ensures from != Free
    ensures LiveSet(h.V(), from, h.markTable.Map()) == KeptObjs(h.Geo(), v, from,
              EvacSeeds(h.Geo(), v, from, roots, CardRoots(h.Geo(), v, cards0, scan, from), h.pinnedCells))
    ensures forall s | s in h.pinnedCells :: s in LiveSet(h.V(), from, h.markTable.Map())
    ensures GraphReady(h.Geo(), v, cards0, scan, roots, h.pinnedCells, from) ==>
              && GraphReady(h.Geo(), h.V(), cards0, scan, roots, h.pinnedCells, from)
              && ClosedHeap(h.Geo(), h.V(), LiveSet(h.V(), from, h.markTable.Map()))
              && GraphKept(h.Geo(), h.V(), h.V(), Staying(LiveSet(h.V(), from, h.markTable.Map())), roots, roots)
  {
    hide Starts, GeoOk, MemoryOk, PagesOk, RegionsOk, HeapOk, NoLarge, PinsOk, Marks, GraphReady, GraphKept,
      ClosedHeap, EvacSeeds, CardRoots, KeptObjs, PinBytesOnly, LiveSet, WellPaired;
    var g, vs, pins, marks := h.Geo(), h.V(), h.pinnedCells, h.markTable.Map();
    var visited := CardRoots(g, vs, cards0, scan, from);
    SameSeeds(g, v, vs, from, roots, cards0, scan, pins);
    MarkedSize(g, v, vs, from, EvacSeeds(g, vs, from, roots, visited, pins), marks);
    LiveIsKept(g, v, vs, from, EvacSeeds(g, vs, from, roots, visited, pins), marks);
    PinsAreLive(vs, pins, from, marks, g, roots, visited);
    if GraphReady(g, v, cards0, scan, roots, pins, from) {
      ReadySansPins(g, v, vs, cards0, scan, roots, pins, from);
      GraphStart(g, vs, cards0, scan, roots, pins, from, marks);
    }
  }

  lemma MarkedSize(g: Geometry, v: View, vs: View, from: Generation, seeds: set<nat>, marks: seq<bool>)
    requires PinBytesOnly(v, vs) && MarkedExactly(g, vs, from, seeds, marks)
    ensures |v.starts| == |marks|
  {
    hide Reachable;
  }

  // -- Pins, the graph and the flipped pages, seen from before the mark ------

  lemma KeptSansPins(g: Geometry, v: View, vs: View, w: View, phi: map<nat, nat>, roots0: seq<u64>, roots: seq<u64>)
    requires GeoOk(g) && PinBytesOnly(v, vs) && Shaped(g, v) && GraphKept(g, vs, w, phi, roots0, roots)
    ensures GraphKept(g, v, w, phi, roots0, roots)
  {
    IsoSansPins(g, v, vs, w, phi);
  }

  lemma BrokenSansPins(g: Geometry, v: View, vs: View, w: View, phi: map<nat, nat>, pins: set<nat>)
    requires GeoOk(g) && PinBytesOnly(v, vs) && Broken(g, vs, w, phi, pins, {})
    ensures Broken(g, v, w, phi, pins, {}) && !Iso(g, v, w, phi)
  {
    var s: nat, i: nat :| Dangling(g, vs, w, phi, pins, {}, s, i);
    assert Dangling(g, v, w, phi, pins, {}, s, i);
    DanglingBreaks(g, v, w, phi, pins, {}, s, i);
  }

  lemma FollowSansPins(g: Geometry, v: View, vs: View, w: View, phi: map<nat, nat>, pins: set<nat>)
    requires GeoOk(g) && PinBytesOnly(v, vs) && InRange(g, phi) && PinsFollow(g, vs, w, phi, pins)
    ensures PinsFollow(g, v, w, phi, pins)
  {
    hide Followed;
    forall s: nat, i: nat | FieldOf(g, v, pins, s, i)
      ensures s + i < |w.cells| && Followed(g, phi, Field(v, s, i), Field(w, s, i))
      ensures Aims(g, v, Field(v, s, i)) ==> CellOf(g, Field(v, s, i)) in phi
    {
      assert FieldOf(g, vs, pins, s, i);
      assert Aims(g, v, Field(v, s, i)) ==> Aims(g, vs, Field(vs, s, i));
    }
  }

  /** The fields tended to and the roots have followed their targets; where a target
      was not kept, the word is as it was. */
  ghost predicate LedOn(g: Geometry, v: View, w: View, phi: map<nat, nat>, live: set<nat>, pins: set<nat>,
                        from: Generation, dest: Generation, straight: bool, roots0: seq<u64>, roots: seq<u64>)
  {
    && GeoOk(g) && InRange(g, phi) && FieldsTracked(g, v, w, phi, live, pins, from, dest, straight)
    && RootsTracked(g, phi, roots0, roots)
  }

  /** So have the fields that the card scan comes to. */
  ghost predicate AllTracked(g: Geometry, v: View, w: View, phi: map<nat, nat>, live: set<nat>, pins: set<nat>,
                             from: Generation, dest: Generation, straight: bool, visited: set<nat>,
                             roots0: seq<u64>, roots: seq<u64>)
  {
    && LedOn(g, v, w, phi, live, pins, from, dest, straight, roots0, roots)
    && CardsTracked(g, v, w, phi, visited, from)
  }

  lemma LedAlong(g: Geometry, v: View, w: View, phi: map<nat, nat>, live: set<nat>, pins: set<nat>, from: Generation,
                 dest: Generation, straight: bool, visited: set<nat>, roots0: seq<u64>, roots: seq<u64>)
    requires AllTracked(g, v, w, phi, live, pins, from, dest, straight, visited, roots0, roots)
    ensures LedOn(g, v, w, phi, live, pins, from, dest, straight, roots0, roots)
  {
    hide LedOn;
  }

  lemma TrackedSansPins(g: Geometry, v: View, vs: View, w: View, phi: map<nat, nat>, live: set<nat>, pins: set<nat>,
                        from: Generation, dest: Generation, straight: bool)
    requires GeoOk(g) && PinBytesOnly(v, vs) && InRange(g, phi)
    requires FieldsTracked(g, vs, w, phi, live, pins, from, dest, straight)
    ensures FieldsTracked(g, v, w, phi, live, pins, from, dest, straight)
  {
    hide Tracked;
    forall s: nat, i: nat | Tended(g, v, live, pins, from, dest, straight, s, i)
      ensures s in phi && phi[s] + i < |w.cells| && Tracked(g, phi, Field(v, s, i), Field(w, phi[s], i))
    {
      assert Tended(g, vs, live, pins, from, dest, straight, s, i);
    }
  }

  lemma CardsTrackedSansPins(g: Geometry, v: View, vs: View, w: View, phi: map<nat, nat>, visited: set<nat>,
                             from: Generation)
    requires GeoOk(g) && PinBytesOnly(v, vs) && InRange(g, phi) && CardsTracked(g, vs, w, phi, visited, from)
    ensures CardsTracked(g, v, w, phi, visited, from)
  {
    hide Tracked;
    forall s: nat, i: nat | Looked(g, v, visited, from, s, i)
      ensures s in phi && phi[s] == s && s + i < |w.cells| && Tracked(g, phi, Field(v, s, i), Field(w, s, i)) {
      assert Looked(g, vs, visited, from, s, i);
    }
  }

  lemma TiledSansPins(g: Geometry, v: View, vs: View, p: nat)
    requires PinBytesOnly(v, vs) && Shaped(g, v) && Shaped(g, vs) && p < |v.descs| && Tiled(g, v, p)
    ensures Tiled(g, vs, p)
  {
    forall y: nat | y < |v.starts| ensures Covered(g, v, y) <==> Covered(g, vs, y) {}
  }

  lemma PlainSansPins(g: Geometry, v: View, vs: View)
    requires PinBytesOnly(v, vs) && |v.starts| == |v.cells|
    ensures PlainHeaders(g, vs) <==> PlainHeaders(g, v)
  {
    hide InHeap;
    forall s: nat ensures IsObj(vs, s) <==> IsObj(v, s) {}
  }

  lemma GarbledSansPins(g: Geometry, v: View, vs: View, cards: seq<bool>, scan: Option<seq<PageDesc>>, from: Generation,
                        at: map<nat, nat>, pages: set<nat>)
    requires GeoOk(g) && PinBytesOnly(v, vs) && Shaped(g, v) && Shaped(g, vs) && PlainHeaders(g, v)
    requires forall p | p in pages :: p < |v.descs| && v.descs[p].generation != Free
    ensures Garbled(g, vs, cards, scan, from, at, pages) <==> Garbled(g, v, cards, scan, from, at, pages)
  {
    hide PlainHeaders, CardLegible, WithMarkers, CardScanned;
    if scan.Some? {
      forall k: nat ensures GarbledCard(g, vs, cards, scan.value, from, at, pages, k) <==>
                              GarbledCard(g, v, cards, scan.value, from, at, pages, k)
      {
        if k < CARDS_PER_PAGE * g.nPages && k / CARDS_PER_PAGE in pages { CardSansPins(g, v, vs, at, k); }
      }
      hide GarbledCard;
    }
  }

  lemma CardSansPins(g: Geometry, v: View, vs: View, at: map<nat, nat>, k: nat)
    requires GeoOk(g) && PinBytesOnly(v, vs) && Shaped(g, v) && Shaped(g, vs) && PlainHeaders(g, v)
    requires k < CARDS_PER_PAGE * g.nPages && v.descs[k / CARDS_PER_PAGE].generation != Free
    ensures CardLegible(g, WithMarkers(g, vs, at), k) <==> CardLegible(g, WithMarkers(g, v, at), k)
  {
    hide PlainHeaders, CardLegible, Marker;
    PlainSansPins(g, v, vs);
    PlainWithMarkers(g, v, at);
    PlainWithMarkers(g, vs, at);
    assert WithMarkers(g, vs, at).cells == WithMarkers(g, v, at).cells;
    CardsAlike(g, WithMarkers(g, v, at), WithMarkers(g, vs, at), k);
  }
}
