/** The object graph through an evacuation pass. */
module PassGraph {
  import opened Bits
  import opened Options
  import opened Bitmaps
  import opened Pages
  import opened Objects
  import opened Marking
  import opened Cards
  import opened Moves
  import opened Rewrite
  import opened Copying
  import opened Reclaiming
  import opened EvacMarking
  import opened Graphs
  import opened Chunks
  import opened Placement

  // -- What a pass may assume about pointers into its source ----------------

  predicate IntoGen(g: Geometry, v: View, gen: Generation, w: u64) {
    InHeap(g, w) && CellOf(g, w) / PAGE_CELLS < |v.descs| && GenAt(v, CellOf(g, w)) == gen
  }

  /** The pointers of the object at `s` into `from` sit in visited cells. */
  ghost predicate ObjCovered(g: Geometry, v: View, visited: set<nat>, from: Generation, s: nat)
    requires s < |v.starts| == |v.cells| && s + SizeOf(g, v, s) <= |v.cells|
  {
    forall i: nat | i < SizeOf(g, v, s) && IsPtrOff(g, v, s, i) && IntoGen(g, v, from, Field(v, s, i)) ::
        s + i in visited
  }

  /** Every pointer into `from` from outside it is visited, or held by a pinned object. */
  ghost predicate OutsideCovered(g: Geometry, v: View, visited: set<nat>, pins: set<nat>, from: Generation)
    requires |v.starts| == |v.cells|
  {
    forall s: nat | s < |v.starts| && IsObj(v, s) && GenAt(v, s) != from && s !in pins ::
      s + SizeOf(g, v, s) <= |v.cells| && ObjCovered(g, v, visited, from, s)
  }

  lemma FollowsValid(g: Geometry, v: View, from: Generation, w: u64)
    requires ValidField(g, v, AllObjs(v), w)
    ensures IntoGen(g, v, from, w) <==> Follows(g, v, from, w)
    ensures InHeap(g, w) ==> IsObj(v, CellOf(g, w))
  {
  }

  /** Where a live pointer leads is live: the mark missed nothing. */
  lemma LiveTarget(g: Geometry, v: View, from: Generation, roots: seq<u64>, visited: set<nat>, pins: set<nat>,
                   marks: seq<bool>, s: nat, i: nat)
    requires HeapOk(g, v) && ClosedHeap(g, v, AllObjs(v)) && OutsideCovered(g, v, visited, pins, from)
    requires MarkedExactly(g, v, from, EvacSeeds(g, v, from, roots, visited, pins), marks)
    requires s in LiveSet(v, from, marks) && i < SizeOf(g, v, s) && IsPtrOff(g, v, s, i)
    ensures s + i < |v.cells| && ValidField(g, v, LiveSet(v, from, marks), Field(v, s, i))
  {
    hide EvacSeeds, Reachable, ObjOk, MarkInv;
    assert s in AllObjs(v);
    var w := Field(v, s, i);
    assert ValidField(g, v, AllObjs(v), w);
    FollowsValid(g, v, from, w);
    if IntoGen(g, v, from, w) {
      TargetMarked(g, v, from, roots, visited, pins, marks, s, i);
    }
  }

  lemma TargetMarked(g: Geometry, v: View, from: Generation, roots: seq<u64>, visited: set<nat>, pins: set<nat>,
                     marks: seq<bool>, s: nat, i: nat)
    requires HeapOk(g, v) && (s in pins || OutsideCovered(g, v, visited, pins, from))
    requires MarkedExactly(g, v, from, EvacSeeds(g, v, from, roots, visited, pins), marks)
    requires s in LiveSet(v, from, marks) && i < SizeOf(g, v, s) && IsPtrOff(g, v, s, i) && s + i < |v.cells|
    requires Follows(g, v, from, Field(v, s, i)) && IntoGen(g, v, from, Field(v, s, i))
    ensures CellOf(g, Field(v, s, i)) in MarkedObjs(v, from, marks)
  {
    hide Reachable, ObjOk, PtrCells, Follows;
    var w := Field(v, s, i);
    if GenAt(v, s) == from {
      assert EdgeAt(g, v, from, s, i, CellOf(g, w));
      assert Edge(g, v, from, s, CellOf(g, w));
    } else if s in pins {
      PtrCellIn(g, v, s, i);
      CrossSeed(g, v, from, pins, s, s + i);
    } else {
      assert ObjCovered(g, v, visited, from, s);
      assert w in WordsAt(v, visited);
      SeedOf(g, v, from, WordsAt(v, visited), w);
    }
  }

  lemma PtrCellIn(g: Geometry, v: View, s: nat, i: nat)
    requires s < |v.starts| == |v.cells| && IsPtrOff(g, v, s, i)
    ensures s + i in PtrCells(g, v, s)
  {
    assert PtrCellOf(g, v, s, s + i);
  }

  lemma CrossSeed(g: Geometry, v: View, from: Generation, pins: set<nat>, s: nat, c: nat)
    requires Shaped(g, v) && s in pins && IsObj(v, s) && GenAt(v, s) != from && c in PtrCells(g, v, s) && c < |v.cells|
    requires Follows(g, v, from, v.cells[c])
    ensures CellOf(g, v.cells[c]) in SeedCells(g, v, from, WordsAt(v, CrossPinPtrs(g, v, pins, from)))
  {
    hide PtrCells;
    assert v.cells[c] in WordsAt(v, CrossPinPtrs(g, v, pins, from));
    SeedOf(g, v, from, WordsAt(v, CrossPinPtrs(g, v, pins, from)), v.cells[c]);
  }

  /** The objects a pass keeps point only at objects it keeps. */
  lemma LiveClosed(g: Geometry, v: View, from: Generation, roots: seq<u64>, visited: set<nat>, pins: set<nat>,
                   marks: seq<bool>)
    requires HeapOk(g, v) && ClosedHeap(g, v, AllObjs(v)) && OutsideCovered(g, v, visited, pins, from)
    requires MarkedExactly(g, v, from, EvacSeeds(g, v, from, roots, visited, pins), marks)
    ensures ClosedHeap(g, v, LiveSet(v, from, marks))
  {
    hide MarkedExactly, EvacSeeds, OutsideCovered, ValidField, ObjOk, IsPtrOff, SizeOf;
    forall s | s in LiveSet(v, from, marks)
      ensures IsObj(v, s) && s + SizeOf(g, v, s) <= |v.cells|
      ensures forall i: nat | i < SizeOf(g, v, s) && IsPtrOff(g, v, s, i) ::
                ValidField(g, v, LiveSet(v, from, marks), Field(v, s, i))
    {
      assert s in AllObjs(v);
      forall i: nat | i < SizeOf(g, v, s) && IsPtrOff(g, v, s, i)
        ensures ValidField(g, v, LiveSet(v, from, marks), Field(v, s, i))
      {
        LiveTarget(g, v, from, roots, visited, pins, marks, s, i);
      }
    }
  }

  /** And so do the caller's roots. */
  lemma LiveRoot(g: Geometry, v: View, from: Generation, roots: seq<u64>, visited: set<nat>, pins: set<nat>,
                 marks: seq<bool>, i: nat)
    requires Shaped(g, v) && MarkedExactly(g, v, from, EvacSeeds(g, v, from, roots, visited, pins), marks)
    requires i < |roots| && ValidField(g, v, AllObjs(v), roots[i])
    ensures ValidField(g, v, LiveSet(v, from, marks), roots[i])
  {
    hide Reachable;
    FollowsValid(g, v, from, roots[i]);
    SeedOf(g, v, from, WordsOf(roots), roots[i]);
  }

  // -- Pages a pass does not touch ------------------------------------------

  /** The setting of one chunk of a pass: `vs` at its start, `v0` before the chunk, `v1` after copying it. */
  ghost predicate InPass(g: Geometry, vs: View, v0: View, v1: View, phi: map<nat, nat>, live: set<nat>, pins: set<nat>,
                         from: Generation, dest: Generation, rest: set<nat>, f: map<nat, nat>, marks: seq<bool>)
    requires GeoOk(g)
  {
    && HeapOk(g, vs) && HeapOk(g, v0) && Placed(g, vs, v0, phi, live, pins, from, dest, rest)
          && live == LiveSet(vs, from, marks)
    && Copied(g, v0, v1, f, dest) && DescsGrown(v0.descs, v1.descs, dest) && FwdMap(g, v1, f) && PartOk(g, v1)
    && (forall s | s in f :: s in phi.Values && s / PAGE_CELLS in rest)
  }

  /** An object outside `from` and `dest` is where it was, as it was. */
  lemma OtherGenStays(g: Geometry, vs: View, v0: View, v1: View, phi: map<nat, nat>, live: set<nat>, pins: set<nat>,
                      from: Generation, dest: Generation, rest: set<nat>, f: map<nat, nat>, marks: seq<bool>, s: nat)
    requires GeoOk(g) && InPass(g, vs, v0, v1, phi, live, pins, from, dest, rest, f, marks)
    requires IsObj(vs, s) && GenAt(vs, s) != from
    ensures s in phi && phi[s] == s && s !in f && IsObj(v1, s) && s < |v1.cells| && s < |vs.cells|
    ensures SameShape(g, vs, v0, s, s) && SameShape(g, v0, v1, s, s)
    ensures v1.starts[s] == vs.starts[s] && LayoutAt(g, v1, s) == LayoutAt(g, vs, s) && !IsMarker(g, v1.cells[s])
  {
    hide FwdMap, PartOk, HeapOk, DescsGrown, CopyAt;
    assert s in phi;
    assert InPlace(g, vs, v0, pins, from, dest, rest, s, phi[s]);
    assert s !in f;
    assert Kept(g, v0, v1, s);
    KeptSame(g, v0, v1, s);
  }

  /** Nothing new appears on a page outside `from` and `dest`. */
  lemma NothingNew(g: Geometry, vs: View, v0: View, v1: View, phi: map<nat, nat>, live: set<nat>, pins: set<nat>,
                   from: Generation, dest: Generation, rest: set<nat>, f: map<nat, nat>, marks: seq<bool>, c: nat)
    requires GeoOk(g) && InPass(g, vs, v0, v1, phi, live, pins, from, dest, rest, f, marks)
    requires c < |vs.starts| && GenAt(vs, c) != from && GenAt(vs, c) != dest && GenAt(vs, c) != Free
    ensures IsObj(v1, c) ==> IsObj(vs, c)
    ensures GenAt(v1, c) == GenAt(vs, c)
  {
    hide FwdMap, PartOk, HeapOk, SameShape, Kept;
    assert GenAt(v0, c) == GenAt(vs, c);
    assert GenAt(v1, c) == GenAt(vs, c);
    forall s | s in f ensures f[s] != c {
      assert CopyAt(g, v0, v1, s, f[s], dest);
    }
    if IsObj(v1, c) {
      assert IsObj(v0, c) && c / PAGE_CELLS !in rest;
      var s :| s in phi && phi[s] == c;
      assert InPlace(g, vs, v0, pins, from, dest, rest, s, c);
      ShapeFit(g, vs, v0, s, c);
    }
  }

  lemma StablePage(g: Geometry, vs: View, v0: View, v1: View, phi: map<nat, nat>, live: set<nat>, pins: set<nat>,
                   from: Generation, dest: Generation, rest: set<nat>, f: map<nat, nat>, marks: seq<bool>, p: nat)
    requires GeoOk(g) && InPass(g, vs, v0, v1, phi, live, pins, from, dest, rest, f, marks)
    requires p < |vs.descs| && vs.descs[p].generation != from && vs.descs[p].generation != dest
    requires vs.descs[p].generation != Free
    ensures SamePage(g, vs, v1, p)
  {
    hide FwdMap, PartOk, HeapOk, SameShape, Kept, Placed, Copied, DescsGrown, LayoutAt;
    InPassShapes(g, vs, v0, v1, phi, live, pins, from, dest, rest, f, marks);
    forall c: nat | c < |vs.starts| && c / PAGE_CELLS == p
      ensures v1.starts[c] == vs.starts[c] && (vs.starts[c] != NoStart ==> LayoutAt(g, v1, c) == LayoutAt(g, vs, c))
    {
      NothingNew(g, vs, v0, v1, phi, live, pins, from, dest, rest, f, marks, c);
      if vs.starts[c] != NoStart { OtherGenStays(g, vs, v0, v1, phi, live, pins, from, dest, rest, f, marks, c); }
    }
    NothingNew(g, vs, v0, v1, phi, live, pins, from, dest, rest, f, marks, PAGE_CELLS * p);
  }

  lemma InPassShapes(g: Geometry, vs: View, v0: View, v1: View, phi: map<nat, nat>, live: set<nat>, pins: set<nat>,
                     from: Generation, dest: Generation, rest: set<nat>, f: map<nat, nat>, marks: seq<bool>)
    requires GeoOk(g) && InPass(g, vs, v0, v1, phi, live, pins, from, dest, rest, f, marks)
    ensures Shaped(g, vs) && Shaped(g, v0) && Shaped(g, v1) && InRange(g, f) && InRange(g, phi)
  {
    hide FwdMap, PartOk, SameShape, Kept, CopyAt, ObjOk, InPlace, RestKept;
  }

  /** What the card scan visited outside `from` and `dest` it still visits. */
  lemma VisitedStable(g: Geometry, vs: View, v0: View, v1: View, phi: map<nat, nat>, live: set<nat>, pins: set<nat>,
                      from: Generation, dest: Generation, rest: set<nat>, f: map<nat, nat>, marks: seq<bool>,
                      cards0: seq<bool>, cards1: seq<bool>, scan: Option<seq<PageDesc>>, c: nat)
    requires GeoOk(g) && InPass(g, vs, v0, v1, phi, live, pins, from, dest, rest, f, marks)
    requires |cards0| == |cards1| && forall k | 0 <= k < |cards0| && cards0[k] :: cards1[k]
    requires Shaped(g, vs) && Shaped(g, v1) && HeapOk(g, vs)
    requires c in CardRoots(g, vs, cards0, scan, from) && c < |vs.starts|
    requires GenAt(vs, c) != from && GenAt(vs, c) != dest && GenAt(vs, c) != Free
    ensures c in CardRoots(g, v1, cards1, scan, from)
  {
    hide InPass, CardVisits, ObjOk;
    var snapshot := scan.value;
    var k: nat :| k < CARDS_PER_PAGE * g.nPages && CardScanned(cards0, snapshot, from, k) && c in CardVisits(g, vs, k);
    HeapCardWhole(g, vs, k);
    CardVisitsPtrs(g, vs, k, c);
    StablePage(g, vs, v0, v1, phi, live, pins, from, dest, rest, f, marks, k / CARDS_PER_PAGE);
    SameVisits(g, vs, v1, k);
    assert CardScanned(cards1, snapshot, from, k);
  }

  // -- The rewriting condition, chunk by chunk ------------------------------

  /** A live pointer cell of `v1` lies among the cells Phase 2 rewrites, if its object
      is in the destination, pinned, or its cell visited by the card scan. */
  lemma TouchedCell(g: Geometry, v1: View, t: nat, i: nat, cards: seq<bool>, scan: Option<seq<PageDesc>>,
                    from: Generation, dest: Generation, pins: set<nat>)
    requires PartOk(g, v1) && IsObj(v1, t) && !IsMarker(g, v1.cells[t]) && i < SizeOf(g, v1, t) && IsPtrOff(g, v1, t, i)
    requires GenAt(v1, t) == dest || t in pins || t + i in CardRoots(g, v1, cards, scan, from)
    ensures t + i in Phase2Cells(g, v1, cards, scan, from, dest, pins)
  {
    hide PtrCells, CardRoots, Owner;
    PtrCellIn(g, v1, t, i);
    PtrCellOwned(g, v1, t, t + i);
    assert ObjOk(g, v1, t);
    ExtentOwner(g, v1, t, i);
    hide LivePtr;
  }

  /** A pointer to an object the chunk moves, held outside `from`, already pointed into `from` at the start. */
  lemma HeldSinceStart(g: Geometry, vs: View, v0: View, v1: View, phi: map<nat, nat>, live: set<nat>, pins: set<nat>,
                       from: Generation, dest: Generation, rest: set<nat>, f: map<nat, nat>, marks: seq<bool>, s: nat,
                       i: nat)
    requires GeoOk(g) && InPass(g, vs, v0, v1, phi, live, pins, from, dest, rest, f, marks) && Iso(g, vs, v0, phi)
    requires IsObj(vs, s) && GenAt(vs, s) != from && s in phi && phi[s] == s
    requires SameShape(g, vs, v0, s, s) && i < SizeOf(g, vs, s) && IsPtrOff(g, vs, s, i)
    requires PointsInto(g, f, Field(v0, s, i))
    ensures IntoGen(g, vs, from, Field(vs, s, i))
  {
    hide FwdMap, PartOk, HeapOk, Copied, DescsGrown, SameShape, LayoutAt, IsPtrOff, SizeOf;
    assert ObjImage(g, vs, v0, phi, s);
    ShapeOffsets(g, vs, v0, s, s, i);
    var w, w' := Field(vs, s, i), Field(v0, s, i);
    var x := CellOf(g, w');
    assert WordImage(g, phi, w, w');
    assert InHeap(g, w) && phi[CellOf(g, w)] == x by {
      if InHeap(g, w) { AimLaw(g, w, phi[CellOf(g, w)]); }
    }
    OnRest(g, vs, v0, phi, live, pins, from, dest, rest, CellOf(g, w));
  }

  /** Field `i` of the live object at `s`, which a later chunk will move, points to a live
      object that this chunk moves. */
  predicate BackAt(g: Geometry, v: View, live: set<nat>, pins: set<nat>, chunk: set<nat>, later: set<nat>, s: nat,
                   i: nat) {
    && s < |v.starts| == |v.cells| && s + i < |v.cells|
    && s in live && s !in pins && s / PAGE_CELLS in later
    && i < SizeOf(g, v, s) && IsPtrOff(g, v, s, i) && InHeap(g, Field(v, s, i))
    && CellOf(g, Field(v, s, i)) in live && CellOf(g, Field(v, s, i)) !in pins
    && CellOf(g, Field(v, s, i)) / PAGE_CELLS in chunk
  }

  /** No pointer leads from a later chunk back into this one. */
  ghost predicate NoBack(g: Geometry, v: View, live: set<nat>, pins: set<nat>, chunk: set<nat>, later: set<nat>) {
    forall s: nat, i: nat :: !BackAt(g, v, live, pins, chunk, later, s, i)
  }

  /** A pointer into the chunk from an unmoved, unpinned object of a later chunk was there at the start. */
  lemma HeldBack(g: Geometry, vs: View, v0: View, v1: View, phi: map<nat, nat>, live: set<nat>, pins: set<nat>,
                 from: Generation, dest: Generation, rest: set<nat>, f: map<nat, nat>, marks: seq<bool>,
                 done: set<nat>, t: nat, i: nat)
    requires GeoOk(g) && InPass(g, vs, v0, v1, phi, live, pins, from, dest, rest, f, marks) && Iso(g, vs, v0, phi)
    requires forall s | s in f :: s / PAGE_CELLS in done && s !in pins
    requires t in phi.Values && IsObj(v0, t) && t / PAGE_CELLS in rest - done && t !in pins
    requires i < SizeOf(g, v0, t) && IsPtrOff(g, v0, t, i) && t + i < |v0.cells| && PointsInto(g, f, Field(v0, t, i))
    ensures BackAt(g, vs, live, pins, done, rest - done, t, i)
  {
    hide FwdMap, PartOk, HeapOk, Copied, DescsGrown, SameShape, LayoutAt, IsPtrOff, SizeOf;
    var s :| s in phi && phi[s] == t;
    OnRest(g, vs, v0, phi, live, pins, from, dest, rest, s);
    assert ObjImage(g, vs, v0, phi, t);
    ShapeOffsets(g, vs, v0, t, t, i);
    ShapeFit(g, vs, v0, t, t);
    var w, w' := Field(vs, t, i), Field(v0, t, i);
    var x := CellOf(g, w');
    assert WordImage(g, phi, w, w');
    assert InHeap(g, w) && phi[CellOf(g, w)] == x by {
      if InHeap(g, w) { AimLaw(g, w, phi[CellOf(g, w)]); }
    }
    OnRest(g, vs, v0, phi, live, pins, from, dest, rest, CellOf(g, w));
  }

  /** Within one generation, or if no pointer leads back into the chunk, every live pointer is reached. */
  lemma Reached(g: Geometry, vs: View, v0: View, v1: View, phi: map<nat, nat>, live: set<nat>, pins: set<nat>,
                from: Generation, dest: Generation, rest: set<nat>, f: map<nat, nat>, marks: seq<bool>,
                cards0: seq<bool>, cards1: seq<bool>, scan: Option<seq<PageDesc>>, done: set<nat>, t: nat, i: nat)
    requires GeoOk(g) && InPass(g, vs, v0, v1, phi, live, pins, from, dest, rest, f, marks) && Iso(g, vs, v0, phi)
    requires |cards0| == |cards1| && forall k | 0 <= k < |cards0| && cards0[k] :: cards1[k]
    requires Shaped(g, vs) && Shaped(g, v1) && HeapOk(g, vs)
    requires OutsideCovered(g, vs, CardRoots(g, vs, cards0, scan, from), pins, from)
    requires from == dest || NoBack(g, vs, live, pins, done, rest - done)
    requires forall s | s in f :: s / PAGE_CELLS in done && s !in pins
    requires t in phi.Values && IsObj(v0, t) && Survives(f, done, pins, t)
    requires i < SizeOf(g, v0, t) && IsPtrOff(g, v0, t, i) && t + i < |v0.cells| && PointsInto(g, f, Field(v0, t, i))
    ensures Place(f, t) + i in Phase2Cells(g, v1, cards1, scan, from, dest, pins)
  {
    hide FwdMap, HeapOk, DescsGrown, SameShape, LayoutAt, IsPtrOff, SizeOf, CardRoots, Phase2Cells, OutsideCovered,
      PartOk, Iso, Copied, PointsInto, Placed, IsObj, NoBack, BackAt;
    InPassShapes(g, vs, v0, v1, phi, live, pins, from, dest, rest, f, marks);
    if from != dest && t !in f && t !in pins && t / PAGE_CELLS in rest {
      HeldBack(g, vs, v0, v1, phi, live, pins, from, dest, rest, f, marks, done, t, i);
      NoneBack(g, vs, live, pins, done, rest - done, t, i);
    }
    PlacedAfterCopy(g, v0, v1, f, dest, t);
    ShapeOffsets(g, v0, v1, t, Place(f, t), i);
    ShapeFit(g, v0, v1, t, Place(f, t));
    if t !in f && t !in pins && GenAt(v0, t) != dest {
      NotFromHere(g, vs, v0, phi, live, pins, from, dest, rest, f, done, t);
      OtherGenStays(g, vs, v0, v1, phi, live, pins, from, dest, rest, f, marks, t);
      ShapeOffsets(g, vs, v0, t, t, i);
      HeldSinceStart(g, vs, v0, v1, phi, live, pins, from, dest, rest, f, marks, t, i);
      CoveredCell(g, vs, CardRoots(g, vs, cards0, scan, from), pins, from, t, i);
      ObjPage(g, vs, t, i);
      VisitedStable(g, vs, v0, v1, phi, live, pins, from, dest, rest, f, marks, cards0, cards1, scan, t + i);
    }
    TouchedCell(g, v1, Place(f, t), i, cards1, scan, from, dest, pins);
  }

  lemma NoneBack(g: Geometry, v: View, live: set<nat>, pins: set<nat>, chunk: set<nat>, later: set<nat>, s: nat, i: nat)
    requires NoBack(g, v, live, pins, chunk, later)
    ensures !BackAt(g, v, live, pins, chunk, later, s, i)
  {
  }

  /** A live object that is neither moving, nor pinned, nor in `dest` comes from another generation. */
  lemma NotFromHere(g: Geometry, vs: View, v0: View, phi: map<nat, nat>, live: set<nat>, pins: set<nat>,
                    from: Generation, dest: Generation, rest: set<nat>, f: map<nat, nat>, done: set<nat>, t: nat)
    requires Placed(g, vs, v0, phi, live, pins, from, dest, rest) && t in phi.Values && t / PAGE_CELLS < |v0.descs|
    requires (from == dest || t / PAGE_CELLS !in rest) && Survives(f, done, pins, t)
    requires t !in f && t !in pins && GenAt(v0, t) != dest
    ensures t in phi && phi[t] == t && IsObj(vs, t) && GenAt(vs, t) != from && GenAt(vs, t) == GenAt(v0, t)
  {
    hide SameShape;
    var s :| s in phi && phi[s] == t;
    assert InPlace(g, vs, v0, pins, from, dest, rest, s, t);
    ShapeFit(g, vs, v0, s, t);
  }

  lemma CoveredCell(g: Geometry, v: View, visited: set<nat>, pins: set<nat>, from: Generation, s: nat, i: nat)
    requires |v.starts| == |v.cells| && OutsideCovered(g, v, visited, pins, from)
    requires IsObj(v, s) && GenAt(v, s) != from && s !in pins && i < SizeOf(g, v, s) && IsPtrOff(g, v, s, i)
    requires s + i < |v.cells| && IntoGen(g, v, from, Field(v, s, i))
    ensures s + i in visited
  {
    assert ObjCovered(g, v, visited, from, s);
  }

  lemma ObjPage(g: Geometry, v: View, s: nat, i: nat)
    requires HeapOk(g, v) && IsObj(v, s) && i < SizeOf(g, v, s)
    ensures s + i < |v.starts| && (s + i) / PAGE_CELLS == s / PAGE_CELLS && GenAt(v, s + i) != Free
  {
    assert ObjOk(g, v, s);
    ExtentOwner(g, v, s, i);
  }

  lemma StepMoves(g: Geometry, v0: View, v1: View, v2: View, v3: View, f: map<nat, nat>, touched: set<nat>,
                  chunk: set<nat>, pins: set<nat>, dest: Generation)
    requires GeoOk(g) && ChunkStep(g, v0, v1, v2, v3, f, touched, chunk, pins, dest)
    ensures forall s | s in f :: s / PAGE_CELLS in chunk && s !in pins && f[s] / PAGE_CELLS !in chunk
  {
    hide Copied, Rewrote, FwdMap, PartOk, HeapOk, PinsOk, PinsSolid, OnlyRewritable, ReclaimedView;
  }

  /** One chunk carries the isomorphism on. */
  lemma GraphStep(g: Geometry, vs: View, v0: View, v1: View, v2: View, v3: View, phi: map<nat, nat>, live: set<nat>,
                  pins: set<nat>, from: Generation, dest: Generation, rest: set<nat>, f: map<nat, nat>,
                  marks: seq<bool>, cards0: seq<bool>, cards1: seq<bool>, scan: Option<seq<PageDesc>>, done: set<nat>)
    requires GeoOk(g) && InPass(g, vs, v0, v1, phi, live, pins, from, dest, rest, f, marks)
    requires Shaped(g, vs) && Shaped(g, v0) && Shaped(g, v1) && InRange(g, f) && InRange(g, phi)
    requires ChunkStep(g, v0, v1, v2, v3, f, Phase2Cells(g, v1, cards1, scan, from, dest, pins), done, pins, dest)
    requires Iso(g, vs, v0, phi) && ClosedHeap(g, vs, phi.Keys)
    requires |cards0| == |cards1| && forall k | 0 <= k < |cards0| && cards0[k] :: cards1[k]
    requires OutsideCovered(g, vs, CardRoots(g, vs, cards0, scan, from), pins, from)
    requires from == dest || NoBack(g, vs, live, pins, done, rest - done)
    requires forall t | t in phi.Values :: Survives(f, done, pins, t) && IsObj(v0, t)
    ensures Iso(g, vs, v3, Onward(phi, f))
  {
    hide InPass, Iso, ChunkStep, ClosedHeap, OutsideCovered, CardRoots, Phase2Cells, Survives, IsObj, SizeOf, IsPtrOff,
      PointsInto, Field, NoBack;
    var touched := Phase2Cells(g, v1, cards1, scan, from, dest, pins);
    ClosedImage(g, vs, v0, phi);
    InPassHeapOk(g, vs, v0, v1, phi, live, pins, from, dest, rest, f, marks);
    StepMoves(g, v0, v1, v2, v3, f, touched, done, pins, dest);
    forall t | t in phi.Values
      ensures IsObj(v0, t) && t < |v0.starts| && t + SizeOf(g, v0, t) <= |v0.cells| && ObjReached(g, v0, f, touched, t)
    {
      ClosedAt(g, v0, phi.Values, t);
      forall i: nat | i < SizeOf(g, v0, t) && IsPtrOff(g, v0, t, i) && PointsInto(g, f, Field(v0, t, i))
        ensures Place(f, t) + i in touched
      {
        Reached(g, vs, v0, v1, phi, live, pins, from, dest, rest, f, marks, cards0, cards1, scan, done, t, i);
      }
    }
    ChunkIsoIff(g, v0, v1, v2, v3, f, touched, done, pins, dest, phi.Values);
    IsoCompose(g, vs, v0, v3, phi, Moving(f, phi.Values));
  }

  lemma ClosedAt(g: Geometry, v: View, live: set<nat>, t: nat)
    requires Shaped(g, v) && ClosedHeap(g, v, live) && t in live
    ensures IsObj(v, t) && t < |v.starts| && t + SizeOf(g, v, t) <= |v.cells|
  {
  }

  lemma InPassHeapOk(g: Geometry, vs: View, v0: View, v1: View, phi: map<nat, nat>, live: set<nat>, pins: set<nat>,
                     from: Generation, dest: Generation, rest: set<nat>, f: map<nat, nat>, marks: seq<bool>)
    requires GeoOk(g) && InPass(g, vs, v0, v1, phi, live, pins, from, dest, rest, f, marks)
    ensures HeapOk(g, vs)
  {
    hide FwdMap, PartOk, HeapOk, SameShape, Kept, Placed, Copied, DescsGrown;
  }

  /** The caller's roots follow. */
  lemma RootsStep(g: Geometry, phi: map<nat, nat>, f: map<nat, nat>, r0: seq<u64>, r1: seq<u64>, r2: seq<u64>)
    requires GeoOk(g) && InRange(g, phi) && InRange(g, f) && f.Values !! f.Keys && InRange(g, Onward(phi, f))
    requires InRange(g, Moving(f, phi.Values))
    requires RootsImage(g, phi, r0, r1) && RootsMoved(g, f, r1, r2)
    ensures RootsImage(g, Onward(phi, f), r0, r2)
  {
    hide Reloc;
    forall i | 0 <= i < |r1| ensures WordImage(g, Moving(f, phi.Values), r1[i], r2[i]) {
      assert WordImage(g, phi, r0[i], r1[i]);
      RootTarget(g, phi, r0[i], r1[i]);
      RelocIsImage(g, f, phi.Values, r1[i]);
    }
    RootsCompose(g, phi, Moving(f, phi.Values), r0, r1, r2);
  }

  lemma RootTarget(g: Geometry, phi: map<nat, nat>, w: u64, w': u64)
    requires GeoOk(g) && InRange(g, phi) && WordImage(g, phi, w, w')
    ensures InHeap(g, w') ==> CellOf(g, w') in phi.Values
  {
    if InHeap(g, w) {
      AimLaw(g, w, phi[CellOf(g, w)]);
      assert phi[CellOf(g, w)] in phi.Values;
    }
  }
}
