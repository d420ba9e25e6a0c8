/** What copying, rewriting and reclaiming one chunk does to the object graph. */
module Chunks {
  import opened Bits
  import opened Options
  import opened Pages
  import opened Objects
  import opened Moves
  import opened Copying
  import opened Reclaiming
  import opened Graphs

  /** One chunk: `v0` copied to `v1` by `f`, the cells of `touched` rewritten, the pages reclaimed. */
  ghost predicate ChunkStep(g: Geometry, v0: View, v1: View, v2: View, v3: View, f: map<nat, nat>, touched: set<nat>,
                            chunk: set<nat>, pins: set<nat>, dest: Generation)
    requires GeoOk(g)
  {
    && HeapOk(g, v0) && PartOk(g, v1) && Copied(g, v0, v1, f, dest) && FwdMap(g, v1, f) && dest != Free
    && Rewrote(g, f, v1, v2, touched) && OnlyRewritable(g, v1, touched)
    && PinsOk(v2, pins) && PinsSolid(g, v2, pins)
    && v3 == ReclaimedView(g, v2, chunk, pins, dest)
    && (forall s | s in f :: s / PAGE_CELLS in chunk && s !in pins && f[s] / PAGE_CELLS !in chunk)
  }

  /** The objects that are still there after the chunk. */
  predicate Survives(f: map<nat, nat>, chunk: set<nat>, pins: set<nat>, s: nat) {
    s in f || s / PAGE_CELLS !in chunk || s in pins
  }

  /** Where the object at `s` is after the chunk. */
  function Place(f: map<nat, nat>, s: nat): nat { if s in f then f[s] else s }

  /** After Phase 1 the object is at its place, word for word. */
  lemma PlacedAfterCopy(g: Geometry, v0: View, v1: View, f: map<nat, nat>, dest: Generation, s: nat)
    requires GeoOk(g) && HeapOk(g, v0) && Copied(g, v0, v1, f, dest) && IsObj(v0, s)
    ensures SameShape(g, v0, v1, s, Place(f, s)) && !IsMarker(g, v1.cells[Place(f, s)])
    ensures forall i | 0 <= i < SizeOf(g, v0, s) :: Field(v1, Place(f, s), i) == Field(v0, s, i)
    ensures GenAt(v1, Place(f, s)) == if s in f then dest else GenAt(v0, s)
  {
    hide ObjOk;
    if s in f {
      assert CopyAt(g, v0, v1, s, f[s], dest);
      CopySame(g, v0, v1, s, f[s], dest);
    } else {
      assert Kept(g, v0, v1, s);
      KeptSame(g, v0, v1, s);
    }
  }

  /** Phase 2 changes words only, and only touched ones. */
  lemma PlacedAfterRewrite(g: Geometry, v1: View, v2: View, f: map<nat, nat>, touched: set<nat>, t: nat)
    requires GeoOk(g) && PartOk(g, v1) && FwdMap(g, v1, f) && OnlyRewritable(g, v1, touched)
    requires Rewrote(g, f, v1, v2, touched)
    requires IsObj(v1, t) && !IsMarker(g, v1.cells[t])
    ensures SameShape(g, v1, v2, t, t) && SizeOf(g, v2, t) == SizeOf(g, v1, t)
    ensures forall i: nat | i < SizeOf(g, v1, t) ::
              Field(v2, t, i) == if t + i in touched then Reloc(g, f, Field(v1, t, i)) else Field(v1, t, i)
    ensures forall i: nat | i < SizeOf(g, v1, t) && t + i in touched ::
              IsPtrOff(g, v1, t, i) || !InHeap(g, Field(v1, t, i))
  {
    hide Reloc, Rewritable, LayoutAt;
    RewroteLayout(g, f, v1, v2, touched, t);
    assert ObjOk(g, v1, t);
    ExtentOwner(g, v1, t, SizeOf(g, v1, t) - 1);
    forall i: nat | i < SizeOf(g, v1, t)
      ensures t + i in touched ==> IsPtrOff(g, v1, t, i) || !InHeap(g, Field(v1, t, i))
    {
      ExtentOwner(g, v1, t, i);
      if t + i in touched { RewritableOff(g, v1, t, i); }
    }
    SameFields(g, f, v1, v2, touched, t);
  }

  /** Where a header of this layout stands there are no pointers. */
  lemma SameFields(g: Geometry, f: map<nat, nat>, v1: View, v2: View, touched: set<nat>, t: nat)
    requires GeoOk(g) && InRange(g, f) && Rewrote(g, f, v1, v2, touched) && t < |v1.starts| == |v1.cells|
    requires t + SizeOf(g, v1, t) <= |v1.cells|
    requires forall i: nat | i < SizeOf(g, v1, t) && t + i in touched ::
               IsPtrOff(g, v1, t, i) || !InHeap(g, Field(v1, t, i))
    ensures forall i: nat | i < SizeOf(g, v1, t) && !IsPtrOff(g, v1, t, i) :: Field(v2, t, i) == Field(v1, t, i)
  {
    hide SizeOf, IsPtrOff, InHeap;
    forall i: nat | i < SizeOf(g, v1, t) && !IsPtrOff(g, v1, t, i) ensures Field(v2, t, i) == Field(v1, t, i) {
      if t + i in touched { assert !InHeap(g, v1.cells[t + i]); }
    }
  }

  lemma RewritableOff(g: Geometry, v: View, t: nat, i: nat)
    requires |v.starts| == |v.cells| && IsObj(v, t) && t + i < |v.starts| && (t + i) / PAGE_CELLS == t / PAGE_CELLS
    requires Rewritable(g, v, t + i) && Owner(v.starts, t + i) == Some(t) && !IsMarker(g, v.cells[t])
    ensures IsPtrOff(g, v, t, i) || !InHeap(g, Field(v, t, i))
  {
    hide IsMarker, InHeap, LayoutAt;
  }

  /** Phase 3 leaves what it keeps alone. */
  lemma PlacedAfterReclaim(g: Geometry, v2: View, chunk: set<nat>, pins: set<nat>, dest: Generation, t: nat)
    requires Shaped(g, v2) && IsObj(v2, t) && PinsOk(v2, pins) && PinsSolid(g, v2, pins) && dest != Free
    requires t / PAGE_CELLS !in chunk || t in pins
    requires t + SizeOf(g, v2, t) <= |v2.cells| && SizeOf(g, v2, t) >= 1
    requires (t + SizeOf(g, v2, t) - 1) / PAGE_CELLS == t / PAGE_CELLS
    ensures var v3 := ReclaimedView(g, v2, chunk, pins, dest);
      && SameShape(g, v2, v3, t, t)
      && (forall i: nat | i < SizeOf(g, v2, t) :: Field(v3, t, i) == Field(v2, t, i))
      && GenAt(v3, t) == if t / PAGE_CELLS in chunk then dest else GenAt(v2, t)
  {
    hide ObjOk, Owner, ReclaimedView, IsPtrOff, LayoutAt;
    if t in pins {
      PinnedAfterReclaim(g, v2, chunk, pins, dest, t);
    } else {
      OtherAfterReclaim(g, v2, chunk, pins, dest, t);
    }
  }

  lemma PinnedAfterReclaim(g: Geometry, v2: View, chunk: set<nat>, pins: set<nat>, dest: Generation, t: nat)
    requires Shaped(g, v2) && IsObj(v2, t) && PinsOk(v2, pins) && PinsSolid(g, v2, pins) && dest != Free && t in pins
    requires t + SizeOf(g, v2, t) <= |v2.cells|
    ensures var v3 := ReclaimedView(g, v2, chunk, pins, dest);
      && SameShape(g, v2, v3, t, t)
      && (forall i: nat | i < SizeOf(g, v2, t) :: Field(v3, t, i) == Field(v2, t, i))
      && GenAt(v3, t) == if t / PAGE_CELLS in chunk then dest else GenAt(v2, t)
  {
    hide ObjOk, Owner, IsPtrOff;
    var v3 := ReclaimedView(g, v2, chunk, pins, dest);
    PinStays(g, v2, chunk, pins, dest, t);
    PinGen(g, v2, chunk, pins, dest, t);
    hide ReclaimedView;
    forall i: nat | i < SizeOf(g, v2, t) ensures Field(v3, t, i) == Field(v2, t, i) {
      assert v3.cells[t + i] == v2.cells[t + i];
    }
  }

  lemma OtherAfterReclaim(g: Geometry, v2: View, chunk: set<nat>, pins: set<nat>, dest: Generation, t: nat)
    requires Shaped(g, v2) && IsObj(v2, t) && dest != Free && t / PAGE_CELLS !in chunk
    requires t + SizeOf(g, v2, t) <= |v2.cells| && SizeOf(g, v2, t) >= 1
    requires (t + SizeOf(g, v2, t) - 1) / PAGE_CELLS == t / PAGE_CELLS
    ensures var v3 := ReclaimedView(g, v2, chunk, pins, dest);
      && SameShape(g, v2, v3, t, t)
      && (forall i: nat | i < SizeOf(g, v2, t) :: Field(v3, t, i) == Field(v2, t, i))
      && GenAt(v3, t) == GenAt(v2, t)
  {
    hide Owner, IsPtrOff, InPinned;
    var v3 := ReclaimedView(g, v2, chunk, pins, dest);
    assert v3.cells[t] == v2.cells[t];
    forall i: nat | i < SizeOf(g, v2, t) ensures Field(v3, t, i) == Field(v2, t, i) {
      assert (t + i) / PAGE_CELLS == t / PAGE_CELLS;
    }
  }

  lemma PinGen(g: Geometry, v: View, chunk: set<nat>, pins: set<nat>, dest: Generation, t: nat)
    requires Shaped(g, v) && PinsOk(v, pins) && t in pins && dest != Free
    ensures GenAt(ReclaimedView(g, v, chunk, pins, dest), t) == if t / PAGE_CELLS in chunk then dest else GenAt(v, t)
  {
    hide Bit;
    assert IsObj(v, t);
    PinBits(v.descs[t / PAGE_CELLS], 0, PinSlot(t));
  }

  /** The object at `s` is at its place with its shape; each of its words is relocated
      if its cell was touched and the same if not; apart from pointer cells only words that do
      not point into the heap were touched. */
  ghost predicate Carried(g: Geometry, f: map<nat, nat>, touched: set<nat>, v0: View, v3: View, s: nat)
    requires GeoOk(g) && InRange(g, f) && |v0.starts| == |v0.cells| && |v3.starts| == |v3.cells|
  {
    var t := Place(f, s);
    && SameShape(g, v0, v3, s, t)
    && forall i: nat | i < SizeOf(g, v0, s) ::
         && Field(v3, t, i) == (if t + i in touched then Reloc(g, f, Field(v0, s, i)) else Field(v0, s, i))
         && (t + i in touched ==> IsPtrOff(g, v0, s, i) || !InHeap(g, Field(v0, s, i)))
  }

  lemma ChunkShapes(g: Geometry, v0: View, v1: View, v2: View, v3: View, f: map<nat, nat>, touched: set<nat>,
                    chunk: set<nat>, pins: set<nat>, dest: Generation)
    requires GeoOk(g) && ChunkStep(g, v0, v1, v2, v3, f, touched, chunk, pins, dest)
    ensures Shaped(g, v0) && Shaped(g, v1) && Shaped(g, v2) && Shaped(g, v3) && InRange(g, f) && Injective(f)
    ensures v2.descs == v1.descs && v2.starts == v1.starts
  {
    ReclaimedShape(g, v2, chunk, pins, dest);
  }

  lemma Survivor(g: Geometry, v0: View, v1: View, v2: View, v3: View, f: map<nat, nat>, touched: set<nat>,
                 chunk: set<nat>, pins: set<nat>, dest: Generation, s: nat)
    requires GeoOk(g) && ChunkStep(g, v0, v1, v2, v3, f, touched, chunk, pins, dest)
    requires IsObj(v0, s) && Survives(f, chunk, pins, s)
    ensures Shaped(g, v0) && Shaped(g, v3) && InRange(g, f)
    ensures Carried(g, f, touched, v0, v3, s)
    ensures GenAt(v3, Place(f, s)) == if s / PAGE_CELLS in chunk then dest else GenAt(v0, s)
  {
    hide Reloc, ObjOk, ReclaimedView, Copied, Rewrote, FwdMap, PartOk, HeapOk, PinsOk, PinsSolid, OnlyRewritable,
      SizeOf, LayoutAt, IsPtrOff, SameShape;
    ChunkShapes(g, v0, v1, v2, v3, f, touched, chunk, pins, dest);
    var t := Place(f, s);
    PlacedAfterCopy(g, v0, v1, f, dest, s);
    ShapeFit(g, v0, v1, s, t);
    PlacedAfterRewrite(g, v1, v2, f, touched, t);
    ShapeFit(g, v1, v2, t, t);
    ExtentOnPage(g, v1, t);
    PlacedAfterReclaim(g, v2, chunk, pins, dest, t);
    ShapeTrans(g, v0, v1, v2, s, t, t);
    ShapeTrans(g, v0, v2, v3, s, t, t);
    forall i: nat | i < SizeOf(g, v0, s)
      ensures s + i < |v0.cells| && t + i < |v3.cells|
      ensures Field(v3, t, i) == (if t + i in touched then Reloc(g, f, Field(v0, s, i)) else Field(v0, s, i))
      ensures t + i in touched ==> IsPtrOff(g, v0, s, i) || !InHeap(g, Field(v0, s, i))
    {
      ShapeOffsets(g, v0, v1, s, t, i);
      ShapeOffsets(g, v1, v2, t, t, i);
      ShapeOffsets(g, v0, v3, s, t, i);
      assert Field(v1, t, i) == Field(v0, s, i);
      assert Field(v3, t, i) == Field(v2, t, i);
    }
  }

  lemma ExtentOnPage(g: Geometry, v: View, t: nat)
    requires PartOk(g, v) && IsObj(v, t) && !IsMarker(g, v.cells[t])
    ensures SizeOf(g, v, t) >= 1 && (t + SizeOf(g, v, t) - 1) / PAGE_CELLS == t / PAGE_CELLS
  {
    assert ObjOk(g, v, t);
    ExtentOwner(g, v, t, SizeOf(g, v, t) - 1);
  }

  /** No other object is left. */
  lemma NoOthers(g: Geometry, v0: View, v1: View, v2: View, v3: View, f: map<nat, nat>, touched: set<nat>,
                 chunk: set<nat>, pins: set<nat>, dest: Generation, x: nat)
    requires GeoOk(g) && ChunkStep(g, v0, v1, v2, v3, f, touched, chunk, pins, dest) && IsObj(v3, x)
    ensures x in f.Values || (IsObj(v0, x) && x !in f && Survives(f, chunk, pins, x))
  {
    hide Reloc, ObjOk, FwdMap, PartOk, HeapOk, PinsOk, PinsSolid, OnlyRewritable, InPinned, CopyAt, Kept;
    assert IsObj(v2, x) && (x / PAGE_CELLS !in chunk || x in pins);
    assert IsObj(v1, x);
  }

  // -- The graph ------------------------------------------------------------

  /** How the objects of `live` move in the chunk. */
  function Moving(f: map<nat, nat>, live: set<nat>): (phi: map<nat, nat>)
    ensures phi.Keys == live && forall s | s in live :: phi[s] == Place(f, s)
  {
    map s | s in live :: Place(f, s)
  }

  /** Every pointer of the object at `s` to an object that moves sits, after Phase 1, in a cell Phase 2 rewrites. */
  ghost predicate ObjReached(g: Geometry, v0: View, f: map<nat, nat>, touched: set<nat>, s: nat)
    requires s < |v0.starts| == |v0.cells| && s + SizeOf(g, v0, s) <= |v0.cells|
  {
    forall i: nat | i < SizeOf(g, v0, s) && IsPtrOff(g, v0, s, i) && PointsInto(g, f, Field(v0, s, i)) ::
      Place(f, s) + i in touched
  }

  ghost predicate AllReached(g: Geometry, v0: View, f: map<nat, nat>, live: set<nat>, touched: set<nat>)
    requires |v0.starts| == |v0.cells|
  {
    forall s | s in live ::
      IsObj(v0, s) && s + SizeOf(g, v0, s) <= |v0.cells| && ObjReached(g, v0, f, touched, s)
  }

  predicate PointsInto(g: Geometry, f: map<nat, nat>, w: u64) { InHeap(g, w) && CellOf(g, w) in f }

  lemma MovingInjective(g: Geometry, v0: View, v1: View, f: map<nat, nat>, dest: Generation, live: set<nat>)
    requires GeoOk(g) && Copied(g, v0, v1, f, dest) && forall s | s in live :: IsObj(v0, s)
    ensures InRange(g, Moving(f, live)) && Injective(Moving(f, live))
  {
    hide CopyAt, Kept;
    var phi := Moving(f, live);
    forall s, t | s in phi && t in phi && s != t ensures phi[s] != phi[t] {
      assert s in f ==> !IsObj(v0, f[s]);
      assert t in f ==> !IsObj(v0, f[t]);
    }
  }

  lemma RelocIsImage(g: Geometry, f: map<nat, nat>, live: set<nat>, w: u64)
    requires GeoOk(g) && InRange(g, f) && InRange(g, Moving(f, live)) && f.Values !! f.Keys
    requires InHeap(g, w) ==> CellOf(g, w) in live
    ensures WordImage(g, Moving(f, live), w, Reloc(g, f, w))
    ensures WordImage(g, Moving(f, live), w, w) <==> !PointsInto(g, f, w)
  {
    if PointsInto(g, f, w) {
      var c := CellOf(g, w);
      assert f[c] in f.Values;
      AimLaw(g, w, f[c]);
    }
  }

  /** A chunk step preserves the graph of a closed live set exactly when every live
      pointer to a moving object sits in a rewritten cell. */
  lemma ChunkIsoIff(g: Geometry, v0: View, v1: View, v2: View, v3: View, f: map<nat, nat>, touched: set<nat>,
                    chunk: set<nat>, pins: set<nat>, dest: Generation, live: set<nat>)
    requires GeoOk(g) && ChunkStep(g, v0, v1, v2, v3, f, touched, chunk, pins, dest)
    requires Shaped(g, v0) && ClosedHeap(g, v0, live) && forall s | s in live :: Survives(f, chunk, pins, s)
    ensures Iso(g, v0, v3, Moving(f, live)) <==> AllReached(g, v0, f, live, touched)
  {
    hide Reloc, ReclaimedView, Copied, Rewrote, FwdMap, PartOk, HeapOk, PinsOk, PinsSolid, OnlyRewritable, LayoutAt,
      SizeOf, IsPtrOff, SameShape, WordImage, Carried, ChunkStep, PointsInto;
    ChunkShapes(g, v0, v1, v2, v3, f, touched, chunk, pins, dest);
    var phi := Moving(f, live);
    assert InRange(g, phi) && Injective(phi) && f.Values !! f.Keys by {
      StepFacts(g, v0, v1, v2, v3, f, touched, chunk, pins, dest, live);
    }
    forall s | s in live
      ensures ObjImage(g, v0, v3, phi, s) <==> ObjReached(g, v0, f, touched, s)
    {
      Survivor(g, v0, v1, v2, v3, f, touched, chunk, pins, dest, s);
      ObjIff(g, v0, v3, f, touched, live, s);
    }
    if Iso(g, v0, v3, phi) {
      assert forall s | s in live :: ObjImage(g, v0, v3, phi, s);
    }
  }

  lemma StepFacts(g: Geometry, v0: View, v1: View, v2: View, v3: View, f: map<nat, nat>, touched: set<nat>,
                  chunk: set<nat>, pins: set<nat>, dest: Generation, live: set<nat>)
    requires GeoOk(g) && ChunkStep(g, v0, v1, v2, v3, f, touched, chunk, pins, dest)
    requires forall s | s in live :: IsObj(v0, s)
    ensures InRange(g, Moving(f, live)) && Injective(Moving(f, live)) && f.Values !! f.Keys
  {
    hide ReclaimedView, PinsSolid, PinsOk, HeapOk, PartOk;
    MovingInjective(g, v0, v1, f, dest, live);
  }

  lemma ObjIff(g: Geometry, v0: View, v3: View, f: map<nat, nat>, touched: set<nat>, live: set<nat>, s: nat)
    requires GeoOk(g) && Shaped(g, v0) && Shaped(g, v3) && InRange(g, f) && f.Values !! f.Keys
    requires InRange(g, Moving(f, live)) && ClosedHeap(g, v0, live) && s in live && Carried(g, f, touched, v0, v3, s)
    ensures IsObj(v0, s) && s + SizeOf(g, v0, s) <= |v0.cells|
    ensures ObjImage(g, v0, v3, Moving(f, live), s) <==> ObjReached(g, v0, f, touched, s)
  {
    hide Reloc, WordImage, SameShape, LayoutAt, SizeOf, IsPtrOff, PointsInto;
    var phi, t := Moving(f, live), Place(f, s);
    ShapeOffsets(g, v0, v3, s, t, 0);
    forall i: nat | i < SizeOf(g, v0, s)
      ensures s + i < |v0.cells| && t + i < |v3.cells|
      ensures FieldImage(g, phi, IsPtrOff(g, v0, s, i), Field(v0, s, i), Field(v3, t, i)) <==>
              (IsPtrOff(g, v0, s, i) && PointsInto(g, f, Field(v0, s, i)) ==> t + i in touched)
    {
      ShapeOffsets(g, v0, v3, s, t, i);
      if IsPtrOff(g, v0, s, i) {
        assert ValidField(g, v0, live, Field(v0, s, i));
        RelocIsImage(g, f, live, Field(v0, s, i));
      } else if t + i in touched {
        NotRelocated(g, f, Field(v0, s, i));
      }
    }
  }

  lemma NotRelocated(g: Geometry, f: map<nat, nat>, w: u64)
    requires GeoOk(g) && InRange(g, f) && !InHeap(g, w)
    ensures Reloc(g, f, w) == w
  {
  }
}
