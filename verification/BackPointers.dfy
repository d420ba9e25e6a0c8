/** Pointers from a later chunk of a promotion back into an earlier one: what becomes of them. */
module BackPointers {
  import opened Bitmaps
  import opened Options
  import opened Pages
  import opened Objects
  import opened Cards
  import opened Moves
  import opened Rewrite
  import opened Copying
  import opened Graphs
  import opened Chunks
  import opened Placement
  import opened Passes
  import opened PassGraph

  /** The card scan does not look at page `p`. */
  predicate Unseen(scan: Option<seq<PageDesc>>, from: Generation, p: nat) {
    scan.Some? ==> Hidden(scan.value, from, p)
  }

  /** Neither the cards, nor the walk over `dest`, nor the pins lead Phase 2 to the object. */
  lemma NotTouched(g: Geometry, v0: View, v1: View, f: map<nat, nat>, dest: Generation, from: Generation,
                   cards: seq<bool>, scan: Option<seq<PageDesc>>, pins: set<nat>, s: nat, i: nat)
    requires GeoOk(g) && HeapOk(g, v0) && Shaped(g, v1) && Copied(g, v0, v1, f, dest) && PartOk(g, v1)
    requires IsObj(v0, s) && s !in f && GenAt(v0, s) == from != dest && s !in pins && i < SizeOf(g, v0, s)
    requires FwdMap(g, v1, f) && Unseen(scan, from, s / PAGE_CELLS)
    requires forall t | t in f :: Unseen(scan, from, t / PAGE_CELLS)
    ensures s + i !in Phase2Cells(g, v1, cards, scan, from, dest, pins)
  {
    hide Copied, ObjOk, LivePtr, CardVisits, Reloc, FwdMap, Unseen;
    PlacedAfterCopy(g, v0, v1, f, dest, s);
    ShapeFit(g, v0, v1, s, s);
    assert ObjOk(g, v1, s);
    WholeIfOk(g, v1, s);
    ExtentOwner(g, v1, s, i);
    OffCards(g, v1, f, cards, scan, from, s + i);
    hide PartOk, HeapOk;
    assert s + i !in GenLivePtrs(g, v1, dest);
    assert s + i !in PinLivePtrs(g, v1, pins);
  }

  /** While no page on which objects were forwarded is let through, the card scan visits cells of
      the pages it lets through only. */
  lemma OffCards(g: Geometry, v: View, f: map<nat, nat>, cards: seq<bool>, scan: Option<seq<PageDesc>>,
                 from: Generation, c: nat)
    requires GeoOk(g) && PartOk(g, v) && FwdMap(g, v, f) && Unseen(scan, from, c / PAGE_CELLS)
    requires forall t | t in f :: Unseen(scan, from, t / PAGE_CELLS)
    ensures c !in CardRoots(g, v, cards, scan, from)
  {
    hide CardVisits, PartOk, ObjOk, FwdMap;
    PartShaped(g, v);
    if scan.Some? {
      forall k: nat | k < CARDS_PER_PAGE * g.nPages && CardScanned(cards, scan.value, from, k)
          && k / CARDS_PER_PAGE != c / PAGE_CELLS
        ensures c !in CardVisits(g, v, k)
      {
        SeenIntact(g, v, f, scan, from, k / CARDS_PER_PAGE);
        IntactWhole(g, v, k);
        if c in CardVisits(g, v, k) { CardVisitsPtrs(g, v, k, c); }
      }
    }
  }

  lemma SeenIntact(g: Geometry, v: View, f: map<nat, nat>, scan: Option<seq<PageDesc>>, from: Generation, p: nat)
    requires GeoOk(g) && Shaped(g, v) && FwdMap(g, v, f) && !Unseen(scan, from, p)
    requires forall t | t in f :: Unseen(scan, from, t / PAGE_CELLS)
    ensures HeadersIntact(g, v, p)
  {
    hide Unseen;
  }

  /** Where no header was overwritten the scan of a card meets whole objects. */
  lemma IntactWhole(g: Geometry, v: View, k: nat)
    requires PartOk(g, v) && Shaped(g, v) && k < CARDS_PER_PAGE * g.nPages && HeadersIntact(g, v, k / CARDS_PER_PAGE)
    ensures CardWhole(g, v, k)
  {
    hide Whole;
    var p := k / CARDS_PER_PAGE;
    forall s: nat | s < |v.starts| && s / PAGE_CELLS == p && IsObj(v, s) ensures Whole(g, v, s) {
      if v.starts[s] == HeaderStart { assert ObjOk(g, v, s); }
    }
    CardOnPage(k);
    if GenAt(v, CARD_CELLS * k) != Free {
      PageWalk(g, v, p, WalkStart(v.starts, CARD_CELLS * k, CARD_CELLS * (k + 1)), CARD_CELLS * (k + 1));
    }
  }

  /** The unpinned live objects still to be moved hold the words they held at the start. */
  ghost predicate RestWords(g: Geometry, vs: View, v: View, live: set<nat>, pins: set<nat>, rest: set<nat>) {
    forall s: nat, i: nat | WordAt(g, vs, live, pins, rest, s, i) ::
        s + i < |v.cells| && Field(v, s, i) == Field(vs, s, i)
  }

  predicate WordAt(g: Geometry, vs: View, live: set<nat>, pins: set<nat>, rest: set<nat>, s: nat, i: nat) {
    && s in live && s !in pins && s / PAGE_CELLS in rest
    && s < |vs.starts| == |vs.cells| && i < SizeOf(g, vs, s) && s + i < |vs.cells|
  }

  /** Field `i` of the object first at `s` still holds the word it held at the start, which
      points to a live object that is not there any more. */
  ghost predicate Dangling(g: Geometry, vs: View, v: View, phi: map<nat, nat>, pins: set<nat>, rest: set<nat>, s: nat,
                           i: nat) {
    && s in phi && s < |vs.starts| == |vs.cells| && s + i < |vs.cells| && phi[s] + i < |v.cells|
    && i < SizeOf(g, vs, s) && IsPtrOff(g, vs, s, i) && InHeap(g, Field(vs, s, i))
    && CellOf(g, Field(vs, s, i)) in phi && CellOf(g, Field(vs, s, i)) / PAGE_CELLS !in rest
    && phi[CellOf(g, Field(vs, s, i))] != CellOf(g, Field(vs, s, i))
    && Field(v, phi[s], i) == Field(vs, s, i)
  }

  /** A dangling field breaks the graph. */
  lemma DanglingBreaks(g: Geometry, vs: View, v: View, phi: map<nat, nat>, pins: set<nat>, rest: set<nat>, s: nat,
                       i: nat)
    requires GeoOk(g) && Dangling(g, vs, v, phi, pins, rest, s, i)
    ensures !Iso(g, vs, v, phi)
  {
    hide SameShape, LayoutAt, SizeOf, IsPtrOff;
    if Iso(g, vs, v, phi) {
      assert ObjImage(g, vs, v, phi, s);
      ShapeOffsets(g, vs, v, s, phi[s], i);
      var w := Field(vs, s, i);
      assert FieldImage(g, phi, IsPtrOff(g, vs, s, i), w, Field(v, phi[s], i));
      assert WordImage(g, phi, w, w);
      AimLaw(g, w, phi[CellOf(g, w)]);
      assert false;
    }
  }

  /** What a chunk does to the word at offset `i` of a live object that no moved object is the target of. */
  lemma WordStays(g: Geometry, v0: View, v1: View, v2: View, v3: View, f: map<nat, nat>, touched: set<nat>,
                  chunk: set<nat>, pins: set<nat>, dest: Generation, t: nat, i: nat)
    requires GeoOk(g) && ChunkStep(g, v0, v1, v2, v3, f, touched, chunk, pins, dest)
    requires IsObj(v0, t) && Survives(f, chunk, pins, t) && i < SizeOf(g, v0, t) && t + i < |v0.cells|
    requires !PointsInto(g, f, Field(v0, t, i)) || Place(f, t) + i !in touched
    ensures Place(f, t) + i < |v3.cells| && Field(v3, Place(f, t), i) == Field(v0, t, i)
  {
    hide ChunkStep, SameShape, SizeOf, IsPtrOff, Survives;
    Survivor(g, v0, v1, v2, v3, f, touched, chunk, pins, dest, t);
    ChunkShapes(g, v0, v1, v2, v3, f, touched, chunk, pins, dest);
    CarriedShape(g, f, touched, v0, v3, t);
    ShapeOffsets(g, v0, v3, t, Place(f, t), i);
  }

  /** A dangling field stays as it is. */
  lemma DanglingStep(g: Geometry, vs: View, v0: View, v1: View, v2: View, v3: View, phi: map<nat, nat>, live: set<nat>,
                     pins: set<nat>, from: Generation, dest: Generation, rest: set<nat>, f: map<nat, nat>,
                     touched: set<nat>, done: set<nat>, s: nat, i: nat)
    requires GeoOk(g) && ChunkStep(g, v0, v1, v2, v3, f, touched, done, pins, dest) && done <= rest
    requires Placed(g, vs, v0, phi, live, pins, from, dest, rest) && Dangling(g, vs, v0, phi, pins, rest, s, i)
    requires forall t | t in phi.Values :: Survives(f, done, pins, t) && IsObj(v0, t)
    ensures Dangling(g, vs, v3, Onward(phi, f), pins, rest - done, s, i)
  {
    hide ChunkStep, SameShape, Survives, SizeOf, IsPtrOff, RestKept;
    var t, x := phi[s], CellOf(g, Field(vs, s, i));
    assert InPlace(g, vs, v0, pins, from, dest, rest, s, t) && InPlace(g, vs, v0, pins, from, dest, rest, x, phi[x]);
    ShapeOffsets(g, vs, v0, s, t, i);
    ShapeFit(g, vs, v0, s, t);
    StepMoves(g, v0, v1, v2, v3, f, touched, done, pins, dest);
    assert x !in f;
    assert t in phi.Values && phi[x] in phi.Values;
    WordStays(g, v0, v1, v2, v3, f, touched, done, pins, dest, t, i);
    NotMovedOn(g, vs, v0, phi, live, pins, from, dest, rest, x);
    assert phi[x] !in f;
  }

  /** An object whose page is done and which moved is off the pages to come. */
  lemma NotMovedOn(g: Geometry, vs: View, v: View, phi: map<nat, nat>, live: set<nat>, pins: set<nat>, from: Generation,
                   dest: Generation, rest: set<nat>, x: nat)
    requires Placed(g, vs, v, phi, live, pins, from, dest, rest) && x in phi && x / PAGE_CELLS !in rest
    ensures phi[x] / PAGE_CELLS !in rest
  {
    hide SameShape, RestKept;
    assert InPlace(g, vs, v, pins, from, dest, rest, x, phi[x]);
  }

  /** The objects still to come after the chunk keep their words. */
  lemma RestWordsStep(g: Geometry, vs: View, v0: View, v1: View, v2: View, v3: View, phi: map<nat, nat>,
                      live: set<nat>, pins: set<nat>, from: Generation, dest: Generation, rest: set<nat>,
                      f: map<nat, nat>, done: set<nat>, cards: seq<bool>, scan: Option<seq<PageDesc>>)
    requires GeoOk(g) && Shaped(g, v1)
    requires ChunkStep(g, v0, v1, v2, v3, f, Phase2Cells(g, v1, cards, scan, from, dest, pins), done, pins, dest)
    requires done <= rest
    requires Placed(g, vs, v0, phi, live, pins, from, dest, rest) && RestWords(g, vs, v0, live, pins, rest)
    requires from != dest
    requires forall p | p in rest :: Unseen(scan, from, p)
    requires forall t | t in phi.Values :: Survives(f, done, pins, t) && IsObj(v0, t)
    ensures RestWords(g, vs, v3, live, pins, rest - done)
  {
    hide ChunkStep, SameShape, Survives, SizeOf, IsPtrOff, RestKept, Phase2Cells, Copied, HeapOk, PartOk, FwdMap;
    forall s: nat, i: nat | WordAt(g, vs, live, pins, rest - done, s, i)
      ensures s + i < |v3.cells| && Field(v3, s, i) == Field(vs, s, i)
    {
      assert WordAt(g, vs, live, pins, rest, s, i);
      assert InPlace(g, vs, v0, pins, from, dest, rest, s, phi[s]);
      RestFrom(vs, v0, from, rest, s);
      assert phi[s] == s && s in phi.Values;
      ShapeOffsets(g, vs, v0, s, s, i);
      ShapeFit(g, vs, v0, s, s);
      StepMoves(g, v0, v1, v2, v3, f, Phase2Cells(g, v1, cards, scan, from, dest, pins), done, pins, dest);
      StepCopied(g, v0, v1, v2, v3, f, Phase2Cells(g, v1, cards, scan, from, dest, pins), done, pins, dest);
      NotTouched(g, v0, v1, f, dest, from, cards, scan, pins, s, i);
      WordStays(g, v0, v1, v2, v3, f, Phase2Cells(g, v1, cards, scan, from, dest, pins), done, pins, dest, s, i);
    }
  }

  lemma RestFrom(vs: View, v: View, from: Generation, rest: set<nat>, s: nat)
    requires |vs.descs| == |v.descs| && |vs.starts| == |v.starts| && RestKept(vs, v, from, rest)
    requires s / PAGE_CELLS in rest
    ensures s / PAGE_CELLS < |vs.descs| && GenAt(vs, s) == from && GenAt(v, s) == from
  {
  }

  /** A pointer back into the chunk is left dangling. */
  lemma DanglingStart(g: Geometry, vs: View, v0: View, v1: View, v2: View, v3: View, phi: map<nat, nat>,
                      live: set<nat>, pins: set<nat>, from: Generation, dest: Generation, rest: set<nat>,
                      f: map<nat, nat>, done: set<nat>, s: nat, i: nat)
    requires GeoOk(g) && Shaped(g, v1) && Placed(g, vs, v0, phi, live, pins, from, dest, rest) && done <= rest
    requires RestWords(g, vs, v3, live, pins, rest - done) && BackAt(g, vs, live, pins, done, rest - done, s, i)
    requires forall t | t in phi.Values :: Survives(f, done, pins, t) && IsObj(v0, t)
    requires forall t | t in f :: t / PAGE_CELLS in done && t !in pins && f[t] / PAGE_CELLS !in done
    ensures Dangling(g, vs, v3, Onward(phi, f), pins, rest - done, s, i)
  {
    hide SameShape, SizeOf, IsPtrOff, RestKept;
    var x := CellOf(g, Field(vs, s, i));
    assert WordAt(g, vs, live, pins, rest - done, s, i);
    assert InPlace(g, vs, v0, pins, from, dest, rest, s, phi[s])
        && InPlace(g, vs, v0, pins, from, dest, rest, x, phi[x]);
    RestFrom(vs, v0, from, rest, s);
    RestFrom(vs, v0, from, rest, x);
    assert phi[s] == s && phi[x] == x && x in phi.Values;
    assert x in f;
  }
}
