/** What follows what through a pass: pinned objects keep up with their targets, the graph is
    carried on or broken, the pages still to come wait unchanged. */
module Following {
  import opened Bits
  import opened Options
  import opened Bitmaps
  import opened Pages
  import opened Objects
  import opened PageHeaps
  import opened Marking
  import opened Cards
  import opened Moves
  import opened Rewrite
  import opened Copying
  import opened Reclaiming
  import opened EvacMarking
  import opened Graphs
  import opened Chunks
  import opened Placement
  import opened Passes
  import opened PassGraph
  import opened PassSteps
  import opened PassStates
  import opened BackPointers

  // -- The pages still to come ----------------------------------------------

  /** Every object on a page still to come, live or not, has the layout it had, and the header. */
  ghost predicate RestLayouts(g: Geometry, vs: View, v: View, rest: set<nat>)
    requires Shaped(g, vs) && Shaped(g, v)
  {
    forall x: nat | x < |vs.starts| && IsObj(vs, x) && x / PAGE_CELLS in rest ::
      LayoutAt(g, v, x) == LayoutAt(g, vs, x) && (vs.starts[x] == HeaderStart ==> v.cells[x] == vs.cells[x])
  }

  lemma LayoutsStep(g: Geometry, vs: View, v0: View, v1: View, v2: View, v3: View, f: map<nat, nat>, touched: set<nat>,
                    from: Generation, dest: Generation, rest: set<nat>, done: set<nat>, pins: set<nat>)
    requires GeoOk(g) && ChunkStep(g, v0, v1, v2, v3, f, touched, done, pins, dest)
    requires Shaped(g, vs) && Shaped(g, v0) && Shaped(g, v3) && RestKept(vs, v0, from, rest)
    requires RestLayouts(g, vs, v0, rest)
    ensures RestLayouts(g, vs, v3, rest - done)
  {
    hide ChunkStep, SameShape, LayoutAt, Carried;
    ChunkShapes(g, v0, v1, v2, v3, f, touched, done, pins, dest);
    StepMoves(g, v0, v1, v2, v3, f, touched, done, pins, dest);
    forall x: nat | x < |vs.starts| && IsObj(vs, x) && x / PAGE_CELLS in rest - done
      ensures LayoutAt(g, v3, x) == LayoutAt(g, vs, x) && (vs.starts[x] == HeaderStart ==> v3.cells[x] == vs.cells[x])
    {
      RestObject(g, vs, v0, from, rest, x);
      Survivor(g, v0, v1, v2, v3, f, touched, done, pins, dest, x);
      CarriedShape(g, f, touched, v0, v3, x);
      ShapeOffsets(g, v0, v3, x, x, 0);
      TurnHeapOk(g, v0, v1, v2, v3, f, touched, done, pins, dest, x);
      if vs.starts[x] == HeaderStart { HeaderKept(g, v0, v3, x, x); }
    }
  }

  lemma TurnHeapOk(g: Geometry, v0: View, v1: View, v2: View, v3: View, f: map<nat, nat>, touched: set<nat>,
               done: set<nat>, pins: set<nat>, dest: Generation, x: nat)
    requires GeoOk(g) && ChunkStep(g, v0, v1, v2, v3, f, touched, done, pins, dest) && Shaped(g, v0) && IsObj(v0, x)
    ensures ObjOk(g, v0, x)
  {
    hide Copied, PartOk, FwdMap, Rewrote, OnlyRewritable, PinsOk, PinsSolid, ReclaimedView;
  }

  /** An object keeps its header wherever it goes. */
  lemma HeaderKept(g: Geometry, v: View, w: View, s: nat, t: nat)
    requires GeoOk(g) && Shaped(g, v) && s < |v.starts| && ObjOk(g, v, s) && |w.starts| == |w.cells|
    requires SameShape(g, v, w, s, t) && v.starts[s] == HeaderStart
    ensures t < |w.cells| && w.cells[t] == v.cells[s]
  {
    assert Field(w, t, 0) == Field(v, s, 0);
  }

  // -- Fields that keep up --------------------------------------------------

  /** Offset `i` of the object at `s`, one of `who`, is a pointer field. */
  predicate FieldOf(g: Geometry, v: View, who: set<nat>, s: nat, i: nat) {
    && s in who && s < |v.starts| == |v.cells| && s + i < |v.cells|
    && i < SizeOf(g, v, s) && IsPtrOff(g, v, s, i)
  }

  /** The word has followed its target, if that is still there; a word that is no pointer is the same. */
  predicate Followed(g: Geometry, phi: map<nat, nat>, w: u64, w': u64)
    requires GeoOk(g) && InRange(g, phi)
  {
    if InHeap(g, w) then CellOf(g, w) in phi ==> WordImage(g, phi, w, w') else w' == w
  }

  /** A pointer to an object of the kind its tag says. */
  predicate Aims(g: Geometry, v: View, w: u64) {
    && InHeap(g, w) && IsObj(v, CellOf(g, w))
    && (g.layout.classify(w).PointerCons? <==> v.starts[CellOf(g, w)] == ConsStart)
  }

  /** Every pointer field of a pinned object has followed its target, and no object that such
      a field points to has been lost. */
  ghost predicate PinsFollow(g: Geometry, v: View, w: View, phi: map<nat, nat>, pins: set<nat>)
    requires GeoOk(g) && InRange(g, phi)
  {
    forall s: nat, i: nat | FieldOf(g, v, pins, s, i) ::
      && s + i < |w.cells| && Followed(g, phi, Field(v, s, i), Field(w, s, i))
      && (Aims(g, v, Field(v, s, i)) ==> CellOf(g, Field(v, s, i)) in phi)
  }

  /** Within a pass nothing is lost on the way: a pointer whose target is not kept stays as it was. */
  predicate Tracked(g: Geometry, phi: map<nat, nat>, w: u64, w': u64)
    requires GeoOk(g) && InRange(g, phi)
  {
    if InHeap(g, w) && CellOf(g, w) in phi then WordImage(g, phi, w, w') else w' == w
  }

  /** Field `i` of the object kept at `s` is one that follows its target through a pass: the object is pinned, or in the
      destination, or in the source as long as no pointer leads back into an earlier chunk; and of
      any other object, if the field does not point into the source. */
  predicate Tended(g: Geometry, vs: View, live: set<nat>, pins: set<nat>, from: Generation, dest: Generation,
                   straight: bool, s: nat, i: nat) {
    && FieldOf(g, vs, live, s, i) && s / PAGE_CELLS < |vs.descs|
    && (s in pins || GenAt(vs, s) == dest || (straight && GenAt(vs, s) == from)
        || !IntoGen(g, vs, from, Field(vs, s, i)))
  }

  ghost predicate FieldsTracked(g: Geometry, vs: View, v: View, phi: map<nat, nat>, live: set<nat>, pins: set<nat>,
                                from: Generation, dest: Generation, straight: bool)
    requires GeoOk(g) && InRange(g, phi)
  {
    forall s: nat, i: nat | Tended(g, vs, live, pins, from, dest, straight, s, i) ::
      s in phi && phi[s] + i < |v.cells| && Tracked(g, phi, Field(vs, s, i), Field(v, phi[s], i))
  }

  /** Field `i` of the object at `s`, of another generation than the source, is a cell that the card scan comes to. */
  predicate Looked(g: Geometry, vs: View, visited: set<nat>, from: Generation, s: nat, i: nat) {
    && IsObj(vs, s) && |vs.starts| == |vs.cells| && s + i < |vs.cells| && s / PAGE_CELLS < |vs.descs|
    && i < SizeOf(g, vs, s) && IsPtrOff(g, vs, s, i) && GenAt(vs, s) != from && s + i in visited
  }

  /** What the card scan comes to follows its target too. */
  ghost predicate CardsTracked(g: Geometry, vs: View, v: View, phi: map<nat, nat>, visited: set<nat>, from: Generation)
    requires GeoOk(g) && InRange(g, phi)
  {
    forall s: nat, i: nat | Looked(g, vs, visited, from, s, i) ::
      s in phi && phi[s] == s && s + i < |v.cells| && Tracked(g, phi, Field(vs, s, i), Field(v, s, i))
  }

  ghost predicate RootsTracked(g: Geometry, phi: map<nat, nat>, before: seq<u64>, after: seq<u64>)
    requires GeoOk(g) && InRange(g, phi)
  {
    |after| == |before| && forall i | 0 <= i < |before| :: Tracked(g, phi, before[i], after[i])
  }

  /** One chunk more. */
  lemma TrackedStep(g: Geometry, phi: map<nat, nat>, f: map<nat, nat>, w: u64, w': u64)
    requires GeoOk(g) && InRange(g, phi) && InRange(g, f) && InRange(g, Onward(phi, f))
    requires InRange(g, Moving(f, phi.Values))
    requires f.Values !! f.Keys && Tracked(g, phi, w, w') && (InHeap(g, w) && CellOf(g, w) in f ==> CellOf(g, w) in phi)
    ensures Tracked(g, Onward(phi, f), w, Reloc(g, f, w'))
  {
    if InHeap(g, w) && CellOf(g, w) in phi {
      var c := CellOf(g, w);
      assert phi[c] in phi.Values;
      ImageTarget(g, phi, w, w');
      RelocIsImage(g, f, phi.Values, w');
      WordCompose(g, phi, Moving(f, phi.Values), w, w', Reloc(g, f, w'));
    }
  }

  lemma FieldsStep(g: Geometry, vs: View, v0: View, v1: View, v2: View, v3: View, phi: map<nat, nat>, live: set<nat>,
                   pins: set<nat>, from: Generation, dest: Generation, rest: set<nat>, f: map<nat, nat>, done: set<nat>,
                   cards: seq<bool>, scan: Option<seq<PageDesc>>, straight: bool)
    requires GeoOk(g) && Shaped(g, v1) && Placed(g, vs, v0, phi, live, pins, from, dest, rest) && done <= rest
    requires ChunkStep(g, v0, v1, v2, v3, f, Phase2Cells(g, v1, cards, scan, from, dest, pins), done, pins, dest)
    requires f.Keys <= phi.Values
    requires forall t | t in phi.Values :: Survives(f, done, pins, t) && IsObj(v0, t)
    requires FieldsTracked(g, vs, v0, phi, live, pins, from, dest, straight)
    ensures InRange(g, Onward(phi, f))
    ensures FieldsTracked(g, vs, v3, Onward(phi, f), live, pins, from, dest,
                straight && NoBack(g, vs, live, pins, done, rest - done))
  {
    hide ChunkStep, SameShape, SizeOf, IsPtrOff, RestKept, Phase2Cells, HeapOk, PartOk, FwdMap, Tracked, Survives,
      Carried, Copied, IsObj, InPlace, NoBack, IntoGen;
    var touched := Phase2Cells(g, v1, cards, scan, from, dest, pins);
    var phi', straight' := Onward(phi, f), straight && NoBack(g, vs, live, pins, done, rest - done);
    StepFits(g, v0, v1, v2, v3, f, touched, done, pins, dest, phi);
    StepMoves(g, v0, v1, v2, v3, f, touched, done, pins, dest);
    forall s: nat, i: nat | Tended(g, vs, live, pins, from, dest, straight', s, i)
      ensures s in phi' && phi'[s] + i < |v3.cells| && Tracked(g, phi', Field(vs, s, i), Field(v3, phi'[s], i))
    {
      assert Tended(g, vs, live, pins, from, dest, straight, s, i) && phi[s] in phi.Values;
      LivePlace(g, vs, v0, phi, live, pins, from, dest, rest, s);
      ShapeOffsets(g, vs, v0, s, phi[s], i);
      ShapeFit(g, vs, v0, s, phi[s]);
      var w := Field(vs, s, i);
      if phi[s] in pins || phi[s] in f || GenAt(v0, phi[s]) == dest {
        TendedField(g, v0, v1, v2, v3, f, touched, done, pins, dest, from, cards, scan, phi[s], i);
        if InHeap(g, w) && CellOf(g, w) in f {
          MovedWas(g, vs, v0, phi, live, pins, from, dest, rest, done, f, CellOf(g, w));
        }
        TrackedStep(g, phi, f, w, Field(v0, phi[s], i));
      } else {
        TargetStays(g, vs, v0, phi, live, pins, from, dest, rest, done, f, straight', s, i);
        AimStays(g, vs, v0, phi, live, pins, from, dest, rest, done, f, w, Field(v0, phi[s], i));
        WordStays(g, v0, v1, v2, v3, f, touched, done, pins, dest, phi[s], i);
      }
    }
  }

  /** Where an object that is kept is by now: where it was, or in the destination. */
  lemma LivePlace(g: Geometry, vs: View, v0: View, phi: map<nat, nat>, live: set<nat>, pins: set<nat>,
                  from: Generation, dest: Generation, rest: set<nat>, s: nat)
    requires Placed(g, vs, v0, phi, live, pins, from, dest, rest) && s in live && s / PAGE_CELLS < |vs.descs|
    ensures s in phi && SameShape(g, vs, v0, s, phi[s]) && s < |vs.starts| && phi[s] / PAGE_CELLS < |v0.descs|
    ensures s in pins ==> phi[s] == s
    ensures GenAt(vs, s) == dest ==> GenAt(v0, phi[s]) == dest
    ensures GenAt(vs, s) == from && GenAt(v0, phi[s]) != dest ==> phi[s] == s && s / PAGE_CELLS in rest
  {
    hide SameShape;
    assert InPlace(g, vs, v0, pins, from, dest, rest, s, phi[s]);
    ShapeFit(g, vs, v0, s, phi[s]);
  }

  /** A field that the chunk does not look for points to nothing that the chunk moves. */
  lemma TargetStays(g: Geometry, vs: View, v0: View, phi: map<nat, nat>, live: set<nat>, pins: set<nat>,
                    from: Generation, dest: Generation, rest: set<nat>, done: set<nat>, f: map<nat, nat>,
                    straight: bool, s: nat, i: nat)
    requires GeoOk(g) && Placed(g, vs, v0, phi, live, pins, from, dest, rest) && done <= rest && f.Keys <= phi.Values
    requires forall t | t in f :: t / PAGE_CELLS in done && t !in pins
    requires forall t | t in phi.Values :: Survives(f, done, pins, t)
    requires Tended(g, vs, live, pins, from, dest, straight, s, i)
    requires straight ==> NoBack(g, vs, live, pins, done, rest - done)
    requires phi[s] !in pins && phi[s] !in f && phi[s] / PAGE_CELLS < |v0.descs| && GenAt(v0, phi[s]) != dest
    ensures InHeap(g, Field(vs, s, i)) ==> CellOf(g, Field(vs, s, i)) !in f
  {
    hide SameShape, SizeOf, IsPtrOff, RestKept, InPlace, NoBack;
    var w := Field(vs, s, i);
    if InHeap(g, w) && CellOf(g, w) in f {
      var c := CellOf(g, w);
      MovedWas(g, vs, v0, phi, live, pins, from, dest, rest, done, f, c);
      LivePlace(g, vs, v0, phi, live, pins, from, dest, rest, s);
      assert phi[s] in phi.Values;
      assert BackAt(g, vs, live, pins, done, rest - done, s, i);
      assert false by { hide BackAt; NoneBack(g, vs, live, pins, done, rest - done, s, i); }
    }
  }

  lemma NoneBack(g: Geometry, v: View, live: set<nat>, pins: set<nat>, chunk: set<nat>, later: set<nat>, s: nat, i: nat)
    requires NoBack(g, v, live, pins, chunk, later)
    ensures !BackAt(g, v, live, pins, chunk, later, s, i)
  {
  }

  /** Then neither does what it has become, and it goes on following its target. */
  lemma AimStays(g: Geometry, vs: View, v0: View, phi: map<nat, nat>, live: set<nat>, pins: set<nat>, from: Generation,
                 dest: Generation, rest: set<nat>, done: set<nat>, f: map<nat, nat>, w: u64, w': u64)
    requires GeoOk(g) && Placed(g, vs, v0, phi, live, pins, from, dest, rest) && done <= rest
    requires forall t | t in f :: t / PAGE_CELLS in done
    requires InRange(g, Onward(phi, f)) && Tracked(g, phi, w, w') && (InHeap(g, w) ==> CellOf(g, w) !in f)
    ensures !PointsInto(g, f, w') && Tracked(g, Onward(phi, f), w, w')
  {
    hide SameShape, RestKept, InPlace;
    if InHeap(g, w) && CellOf(g, w) in phi {
      var c := CellOf(g, w);
      ImageTarget(g, phi, w, w');
      if phi[c] in f { OnRest(g, vs, v0, phi, live, pins, from, dest, rest, c); }
    }
  }

  lemma StepFits(g: Geometry, v0: View, v1: View, v2: View, v3: View, f: map<nat, nat>, touched: set<nat>,
                 done: set<nat>, pins: set<nat>, dest: Generation, phi: map<nat, nat>)
    requires GeoOk(g) && ChunkStep(g, v0, v1, v2, v3, f, touched, done, pins, dest) && Injective(phi)
    requires InRange(g, phi) && forall t | t in phi.Values :: IsObj(v0, t)
    ensures InRange(g, f) && f.Values !! f.Keys && InRange(g, Onward(phi, f)) && InRange(g, Moving(f, phi.Values))
  {
    hide ChunkStep, HeapOk, PartOk, FwdMap, Copied, IsObj;
    ChunkShapes(g, v0, v1, v2, v3, f, touched, done, pins, dest);
    StepCopied(g, v0, v1, v2, v3, f, touched, done, pins, dest);
    OnwardInjective(g, v0, v1, phi, f, dest);
    MovingInjective(g, v0, v1, f, dest, phi.Values);
    FwdRange(g, v1, f);
  }

  lemma MovedWas(g: Geometry, vs: View, v0: View, phi: map<nat, nat>, live: set<nat>, pins: set<nat>, from: Generation,
                 dest: Generation, rest: set<nat>, done: set<nat>, f: map<nat, nat>, c: nat)
    requires Placed(g, vs, v0, phi, live, pins, from, dest, rest) && done <= rest && c in f.Keys && f.Keys <= phi.Values
    requires forall s | s in f :: s / PAGE_CELLS in done
    ensures c in phi && phi[c] == c && c / PAGE_CELLS < |vs.descs| && GenAt(vs, c) == from
  {
    var s :| s in phi && phi[s] == c;
    OnRest(g, vs, v0, phi, live, pins, from, dest, rest, s);
  }

  lemma TendedField(g: Geometry, v0: View, v1: View, v2: View, v3: View, f: map<nat, nat>, touched: set<nat>,
                    done: set<nat>, pins: set<nat>, dest: Generation, from: Generation, cards: seq<bool>,
                    scan: Option<seq<PageDesc>>, t: nat, i: nat)
    requires GeoOk(g) && Shaped(g, v1) && touched == Phase2Cells(g, v1, cards, scan, from, dest, pins)
    requires ChunkStep(g, v0, v1, v2, v3, f, touched, done, pins, dest) && InRange(g, f)
    requires (forall s | s in f :: s !in pins) && IsObj(v0, t) && Survives(f, done, pins, t)
    requires t in pins || t in f || (t / PAGE_CELLS < |v0.descs| && GenAt(v0, t) == dest)
             || t + i in CardRoots(g, v1, cards, scan, from)
    requires i < SizeOf(g, v0, t) && IsPtrOff(g, v0, t, i) && t + i < |v0.cells|
    ensures Place(f, t) + i < |v3.cells| && Field(v3, Place(f, t), i) == Reloc(g, f, Field(v0, t, i))
  {
    hide ChunkStep, SameShape, SizeOf, IsPtrOff, Phase2Cells, HeapOk, PartOk, FwdMap, Copied, Reloc;
    var x := Place(f, t);
    ChunkShapes(g, v0, v1, v2, v3, f, touched, done, pins, dest);
    StepCopied(g, v0, v1, v2, v3, f, touched, done, pins, dest);
    PlacedAfterCopy(g, v0, v1, f, dest, t);
    ShapeOffsets(g, v0, v1, t, x, i);
    ShapeFit(g, v0, v1, t, x);
    TouchedCell(g, v1, x, i, cards, scan, from, dest, pins);
    Survivor(g, v0, v1, v2, v3, f, touched, done, pins, dest, t);
    CarriedShape(g, f, touched, v0, v3, t);
    ShapeOffsets(g, v0, v3, t, x, i);
  }

  lemma CardsStep(g: Geometry, vs: View, v0: View, v1: View, v2: View, v3: View, phi: map<nat, nat>, live: set<nat>,
                  pins: set<nat>, from: Generation, dest: Generation, rest: set<nat>, f: map<nat, nat>, done: set<nat>,
                  marks: seq<bool>, cards0: seq<bool>, cards1: seq<bool>, scan: Option<seq<PageDesc>>)
    requires GeoOk(g) && InPass(g, vs, v0, v1, phi, live, pins, from, dest, rest, f, marks) && done <= rest
    requires Shaped(g, vs) && Shaped(g, v0) && Shaped(g, v1)
    requires ChunkStep(g, v0, v1, v2, v3, f, Phase2Cells(g, v1, cards1, scan, from, dest, pins), done, pins, dest)
    requires |cards0| == |cards1| && forall k | 0 <= k < |cards0| && cards0[k] :: cards1[k]
    requires (forall t | t in phi.Values :: Survives(f, done, pins, t) && IsObj(v0, t)) && f.Keys <= phi.Values
    requires CardsTracked(g, vs, v0, phi, CardRoots(g, vs, cards0, scan, from), from)
    ensures InRange(g, Onward(phi, f))
    ensures CardsTracked(g, vs, v3, Onward(phi, f), CardRoots(g, vs, cards0, scan, from), from)
  {
    hide InPass, ChunkStep, SameShape, Looked, Phase2Cells, HeapOk, Tracked, Survives, IsObj, CardRoots;
    var touched := Phase2Cells(g, v1, cards1, scan, from, dest, pins);
    var visited, phi' := CardRoots(g, vs, cards0, scan, from), Onward(phi, f);
    InPassPlaced(g, vs, v0, v1, phi, live, pins, from, dest, rest, f, marks);
    StepFits(g, v0, v1, v2, v3, f, touched, done, pins, dest, phi);
    StepMoves(g, v0, v1, v2, v3, f, touched, done, pins, dest);
    forall s: nat, i: nat | Looked(g, vs, visited, from, s, i)
      ensures s in phi' && phi'[s] == s && s + i < |v3.cells| && Tracked(g, phi', Field(vs, s, i), Field(v3, s, i))
    {
      CellFollows(g, vs, v0, v1, v2, v3, phi, live, pins, from, dest, rest, f, done, marks, cards0, cards1, scan, s, i);
      var w := Field(vs, s, i);
      if InHeap(g, w) && CellOf(g, w) in f {
        MovedWas(g, vs, v0, phi, live, pins, from, dest, rest, done, f, CellOf(g, w));
      }
      TrackedStep(g, phi, f, w, Field(v0, s, i));
    }
  }

  /** The scan of each chunk comes to the cell again, unless the walk over the destination does. */
  lemma CellFollows(g: Geometry, vs: View, v0: View, v1: View, v2: View, v3: View, phi: map<nat, nat>, live: set<nat>,
                    pins: set<nat>, from: Generation, dest: Generation, rest: set<nat>, f: map<nat, nat>,
                    done: set<nat>, marks: seq<bool>, cards0: seq<bool>, cards1: seq<bool>,
                    scan: Option<seq<PageDesc>>, s: nat, i: nat)
    requires GeoOk(g) && InPass(g, vs, v0, v1, phi, live, pins, from, dest, rest, f, marks)
    requires Shaped(g, vs) && Shaped(g, v0) && Shaped(g, v1) && InRange(g, f)
    requires ChunkStep(g, v0, v1, v2, v3, f, Phase2Cells(g, v1, cards1, scan, from, dest, pins), done, pins, dest)
    requires |cards0| == |cards1| && forall k | 0 <= k < |cards0| && cards0[k] :: cards1[k]
    requires forall t | t in phi.Values :: Survives(f, done, pins, t) && IsObj(v0, t)
    requires forall t | t in f :: t !in pins
    requires Looked(g, vs, CardRoots(g, vs, cards0, scan, from), from, s, i)
    ensures s in phi && phi[s] == s && s !in f && s + i < |v0.cells| && s + i < |v3.cells|
    ensures Field(v3, s, i) == Reloc(g, f, Field(v0, s, i))
  {
    hide InPass, ChunkStep, SameShape, SizeOf, IsPtrOff, Phase2Cells, HeapOk, Survives, CardRoots, Reloc, LayoutAt;
    var touched := Phase2Cells(g, v1, cards1, scan, from, dest, pins);
    InPassPlaced(g, vs, v0, v1, phi, live, pins, from, dest, rest, f, marks);
    OtherGenStays(g, vs, v0, v1, phi, live, pins, from, dest, rest, f, marks, s);
    ShapeOffsets(g, vs, v0, s, s, i);
    ShapeFit(g, vs, v0, s, s);
    ObjPage(g, vs, s, i);
    StillThere(g, vs, v0, phi, live, pins, from, dest, rest, s);
    if GenAt(vs, s) != dest {
      VisitedStable(g, vs, v0, v1, phi, live, pins, from, dest, rest, f, marks, cards0, cards1, scan, s + i);
    }
    assert phi[s] in phi.Values;
    TendedField(g, v0, v1, v2, v3, f, touched, done, pins, dest, from, cards1, scan, s, i);
  }

  lemma InPassPlaced(g: Geometry, vs: View, v0: View, v1: View, phi: map<nat, nat>, live: set<nat>, pins: set<nat>,
                     from: Generation, dest: Generation, rest: set<nat>, f: map<nat, nat>, marks: seq<bool>)
    requires GeoOk(g) && InPass(g, vs, v0, v1, phi, live, pins, from, dest, rest, f, marks)
    ensures Placed(g, vs, v0, phi, live, pins, from, dest, rest) && HeapOk(g, vs) && Injective(phi) && InRange(g, phi)
  {
    hide HeapOk, Copied, DescsGrown, FwdMap, PartOk;
  }

  lemma StillThere(g: Geometry, vs: View, v0: View, phi: map<nat, nat>, live: set<nat>, pins: set<nat>,
                   from: Generation, dest: Generation, rest: set<nat>, s: nat)
    requires Placed(g, vs, v0, phi, live, pins, from, dest, rest) && s in phi && phi[s] == s
    requires s / PAGE_CELLS < |vs.descs| && GenAt(vs, s) != from
    ensures s / PAGE_CELLS < |v0.descs| && GenAt(v0, s) == GenAt(vs, s)
  {
    hide SameShape;
    assert InPlace(g, vs, v0, pins, from, dest, rest, s, phi[s]);
  }

  lemma CardsStart(g: Geometry, vs: View, cards: seq<bool>, scan: Option<seq<PageDesc>>, from: Generation,
                   live: set<nat>)
    requires GeoOk(g) && Shaped(g, vs) && InRange(g, Staying(live))
    requires forall s | s in AllObjs(vs) && GenAt(vs, s) != from :: s in live
    ensures CardsTracked(g, vs, vs, Staying(live), CardRoots(g, vs, cards, scan, from), from)
  {
    hide SizeOf, IsPtrOff, CardRoots;
    forall w: u64 ensures Tracked(g, Staying(live), w, w) { StaysTracked(g, live, w); }
  }

  lemma TrackedStart(g: Geometry, vs: View, live: set<nat>, pins: set<nat>, from: Generation, dest: Generation,
                     roots: seq<u64>)
    requires GeoOk(g) && InRange(g, Staying(live))
    ensures FieldsTracked(g, vs, vs, Staying(live), live, pins, from, dest, true)
    ensures RootsTracked(g, Staying(live), roots, roots)
  {
    hide SizeOf, IsPtrOff;
    forall w: u64 ensures Tracked(g, Staying(live), w, w) { StaysTracked(g, live, w); }
  }

  lemma StaysTracked(g: Geometry, live: set<nat>, w: u64)
    requires GeoOk(g) && InRange(g, Staying(live))
    ensures Tracked(g, Staying(live), w, w)
  {
  }

  /** The roots too, chunk by chunk. */
  lemma RootsFollow(g: Geometry, vs: View, v0: View, v1: View, v2: View, v3: View, phi: map<nat, nat>, live: set<nat>,
                    pins: set<nat>, from: Generation, dest: Generation, rest: set<nat>, f: map<nat, nat>,
                    touched: set<nat>, done: set<nat>, r0: seq<u64>, r1: seq<u64>, r2: seq<u64>)
    requires GeoOk(g) && Placed(g, vs, v0, phi, live, pins, from, dest, rest) && done <= rest
    requires ChunkStep(g, v0, v1, v2, v3, f, touched, done, pins, dest) && f.Keys <= phi.Values
    requires (forall t | t in phi.Values :: IsObj(v0, t)) && InRange(g, f)
    requires RootsTracked(g, phi, r0, r1) && RootsMoved(g, f, r1, r2)
    ensures InRange(g, Onward(phi, f)) && RootsTracked(g, Onward(phi, f), r0, r2)
  {
    hide ChunkStep, InPlace, RestKept, Tracked, Reloc, IsObj;
    StepFits(g, v0, v1, v2, v3, f, touched, done, pins, dest, phi);
    StepMoves(g, v0, v1, v2, v3, f, touched, done, pins, dest);
    forall i | 0 <= i < |r0| ensures Tracked(g, Onward(phi, f), r0[i], r2[i]) {
      var w := r0[i];
      if InHeap(g, w) && CellOf(g, w) in f {
        MovedWas(g, vs, v0, phi, live, pins, from, dest, rest, done, f, CellOf(g, w));
      }
      TrackedStep(g, phi, f, w, r1[i]);
    }
  }

  /** What a pinned object points to is kept. */
  lemma PinnedKeeps(g: Geometry, v: View, from: Generation, roots: seq<u64>, visited: set<nat>, pins: set<nat>,
                    marks: seq<bool>, s: nat, i: nat)
    requires HeapOk(g, v) && MarkedExactly(g, v, from, EvacSeeds(g, v, from, roots, visited, pins), marks)
    requires s in LiveSet(v, from, marks) && FieldOf(g, v, pins, s, i) && Aims(g, v, Field(v, s, i))
    ensures CellOf(g, Field(v, s, i)) in LiveSet(v, from, marks)
  {
    hide MarkedExactly, EvacSeeds, Reachable;
    if GenAt(v, CellOf(g, Field(v, s, i))) == from {
      TargetMarked(g, v, from, roots, visited, pins, marks, s, i);
    }
  }

  /** After the last chunk. */
  lemma PinsFollowEnd(g: Geometry, vs: View, w: View, phi: map<nat, nat>, live: set<nat>, from: Generation,
                      dest: Generation, roots: seq<u64>, visited: set<nat>, pins: set<nat>, marks: seq<bool>,
                      straight: bool)
    requires GeoOk(g) && HeapOk(g, vs) && InRange(g, phi)
    requires FieldsTracked(g, vs, w, phi, live, pins, from, dest, straight)
    requires MarkedExactly(g, vs, from, EvacSeeds(g, vs, from, roots, visited, pins), marks)
    requires phi.Keys == live == LiveSet(vs, from, marks)
    requires forall s | s in pins :: s in phi && phi[s] == s && s / PAGE_CELLS < |vs.descs|
    ensures PinsFollow(g, vs, w, phi, pins)
  {
    hide MarkedExactly, EvacSeeds, LiveSet, HeapOk, Tracked, WordImage, SizeOf, IsPtrOff;
    forall s: nat, i: nat | FieldOf(g, vs, pins, s, i)
      ensures s + i < |w.cells| && Followed(g, phi, Field(vs, s, i), Field(w, s, i))
      ensures Aims(g, vs, Field(vs, s, i)) ==> CellOf(g, Field(vs, s, i)) in phi
    {
      assert Tended(g, vs, live, pins, from, dest, straight, s, i);
      TrackedFollows(g, phi, Field(vs, s, i), Field(w, s, i));
      if Aims(g, vs, Field(vs, s, i)) { PinnedKeeps(g, vs, from, roots, visited, pins, marks, s, i); }
    }
  }

  lemma TrackedFollows(g: Geometry, phi: map<nat, nat>, w: u64, w': u64)
    requires GeoOk(g) && InRange(g, phi) && Tracked(g, phi, w, w')
    ensures Followed(g, phi, w, w')
  {
  }

  // -- All of it ------------------------------------------------------------

  /** Somewhere a field is left pointing to where its target no longer is. */
  ghost predicate Broken(g: Geometry, vs: View, v: View, phi: map<nat, nat>, pins: set<nat>, rest: set<nat>) {
    exists s: nat, i: nat :: Dangling(g, vs, v, phi, pins, rest, s, i)
  }

  ghost predicate AllUnseen(scan: Option<seq<PageDesc>>, from: Generation, pages: set<nat>) {
    forall p | p in pages :: Unseen(scan, from, p)
  }

  /** From `vs` to `v`: the fields tended to and the roots have followed; if `ready`, the graph is carried on
      within one generation and as long as the promotion is `straight`; if all source pages are `hidden` from
      the card scan, a promotion that is not has broken it. */
  ghost predicate KeptUp(g: Geometry, vs: View, v: View, phi: map<nat, nat>, live: set<nat>, pins: set<nat>,
                         from: Generation, dest: Generation, rest: set<nat>, visited: set<nat>, rootsS: seq<u64>,
                         roots: seq<u64>, ready: bool, hidden: bool, straight: bool)
    requires GeoOk(g) && Shaped(g, vs) && Shaped(g, v) && InRange(g, phi)
  {
    && RestLayouts(g, vs, v, rest) && FieldsTracked(g, vs, v, phi, live, pins, from, dest, straight)
    && CardsTracked(g, vs, v, phi, visited, from) && RootsTracked(g, phi, rootsS, roots)
    && (ready && (from == dest || straight) ==> GraphKept(g, vs, v, phi, rootsS, roots))
    && (from != dest && hidden ==>
          RestWords(g, vs, v, live, pins, rest) && (!straight ==> Broken(g, vs, v, phi, pins, rest)))
  }

  /** One chunk of a promotion whose source the card scan does not see. */
  lemma BrokenStep(g: Geometry, vs: View, v0: View, v1: View, v2: View, v3: View, phi: map<nat, nat>, live: set<nat>,
                   pins: set<nat>, from: Generation, dest: Generation, rest: set<nat>, f: map<nat, nat>,
                   done: set<nat>, cards: seq<bool>, scan: Option<seq<PageDesc>>, straight: bool)
    requires GeoOk(g) && Shaped(g, v1) && Placed(g, vs, v0, phi, live, pins, from, dest, rest) && done <= rest
    requires from != dest
    requires ChunkStep(g, v0, v1, v2, v3, f, Phase2Cells(g, v1, cards, scan, from, dest, pins), done, pins, dest)
    requires AllUnseen(scan, from, rest)
    requires forall t | t in phi.Values :: Survives(f, done, pins, t) && IsObj(v0, t)
    requires RestWords(g, vs, v0, live, pins, rest) && (!straight ==> Broken(g, vs, v0, phi, pins, rest))
    ensures RestWords(g, vs, v3, live, pins, rest - done)
    ensures !(straight && NoBack(g, vs, live, pins, done, rest - done)) ==>
              Broken(g, vs, v3, Onward(phi, f), pins, rest - done)
  {
    hide ChunkStep, Placed, Phase2Cells, Survives, IsObj, Dangling, BackAt, RestWords;
    var touched := Phase2Cells(g, v1, cards, scan, from, dest, pins);
    RestWordsStep(g, vs, v0, v1, v2, v3, phi, live, pins, from, dest, rest, f, done, cards, scan);
    StepMoves(g, v0, v1, v2, v3, f, touched, done, pins, dest);
    if !straight {
      var s: nat, i: nat :| Dangling(g, vs, v0, phi, pins, rest, s, i);
      DanglingStep(g, vs, v0, v1, v2, v3, phi, live, pins, from, dest, rest, f, touched, done, s, i);
      assert Dangling(g, vs, v3, Onward(phi, f), pins, rest - done, s, i);
    } else if !NoBack(g, vs, live, pins, done, rest - done) {
      var s: nat, i: nat :| BackAt(g, vs, live, pins, done, rest - done, s, i);
      DanglingStart(g, vs, v0, v1, v2, v3, phi, live, pins, from, dest, rest, f, done, s, i);
      assert Dangling(g, vs, v3, Onward(phi, f), pins, rest - done, s, i);
    }
  }

  lemma NowInPass(h: PageHeap, vs: View, cardsS: seq<bool>, v0: View, cards0: seq<bool>, roots0: seq<u64>,
                  roots: seq<u64>, phi: map<nat, nat>, live: set<nat>, marks: seq<bool>, from: Generation,
                  dest: Generation, rest: set<nat>, chunk: seq<nat>, scan: Option<seq<PageDesc>>, t: ChunkTrace)
    requires PassState(h.Geo(), vs, cardsS, v0, cards0, phi, live, h.pinnedCells, from, dest, rest)
    requires ChunkDone(h, from, dest, chunk, scan, v0, cards0, roots0, roots, rest, t)
    requires live == LiveSet(vs, from, marks) && marks == h.markTable.Map()
    requires (forall i | 0 <= i < |chunk| :: chunk[i] in rest) && t.f.Keys <= phi.Values
    ensures GeoOk(h.Geo()) && InPass(h.Geo(), vs, v0, t.v1, phi, live, h.pinnedCells, from, dest, rest, t.f, marks)
    ensures |cardsS| == |t.cards1| && forall k | 0 <= k < |cardsS| && cardsS[k] :: t.cards1[k]
  {
    hide Starts, HeapOk, Placed, TiledSoFar, Emptied, CopySoFar, ChunkStep, MovableIn, Marks, Phase2Cells, PinsCarded,
      BlockCarded, RootsMoved, LiveSet, Before, Sealed, GeoOk, WellPaired, PartOk, Copied, FwdMap, DescsGrown, SizeOf;
    var g, pins, done := h.Geo(), h.pinnedCells, Before(chunk, |chunk|);
    var touched := Phase2Cells(g, t.v1, t.cards1, scan, from, dest, pins);
    ChunkShapes(g, v0, t.v1, t.v2, h.V(), t.f, touched, done, pins, dest);
    StepCopied(g, v0, t.v1, t.v2, h.V(), t.f, touched, done, pins, dest);
    MovedFromRest(v0, h.markTable.Map(), pins, from, chunk, rest);
    SoFarCards(g, v0, cards0, t.v1, t.cards1, t.f, dest, rest);
    SoFarDescs(g, v0, cards0, t.v1, t.cards1, t.f, dest, rest);
    assert forall s | s in t.f :: s in phi.Values && s / PAGE_CELLS in rest;
  }

  lemma FollowStep(h: PageHeap, vs: View, cardsS: seq<bool>, v0: View, cards0: seq<bool>, rootsS: seq<u64>,
                   roots0: seq<u64>, roots: seq<u64>, phi: map<nat, nat>, live: set<nat>, marks: seq<bool>,
                   from: Generation, dest: Generation, rest: set<nat>, chunk: seq<nat>, scan: Option<seq<PageDesc>>,
                   t: ChunkTrace, ready: bool, hidden: bool, straight: bool)
    requires PassState(h.Geo(), vs, cardsS, v0, cards0, phi, live, h.pinnedCells, from, dest, rest)
    requires ChunkDone(h, from, dest, chunk, scan, v0, cards0, roots0, roots, rest, t)
    requires live == LiveSet(vs, from, marks) && marks == h.markTable.Map()
    requires (forall s | s in h.pinnedCells :: s in live)
    requires forall i | 0 <= i < |chunk| :: chunk[i] in rest
    requires t.f.Keys <= phi.Values
    requires forall x | x in phi.Values :: Survives(t.f, Before(chunk, |chunk|), h.pinnedCells, x) && IsObj(v0, x)
    requires ready ==>
               GraphReady(h.Geo(), vs, cardsS, scan, rootsS, h.pinnedCells, from) && ClosedHeap(h.Geo(), vs, live)
    requires hidden ==> AllUnseen(scan, from, rest)
    requires Shaped(h.Geo(), vs) && Shaped(h.Geo(), v0) && InRange(h.Geo(), phi)
    requires KeptUp(h.Geo(), vs, v0, phi, live, h.pinnedCells, from, dest, rest,
                    CardRoots(h.Geo(), vs, cardsS, scan, from), rootsS, roots0, ready, hidden, straight)
    ensures Shaped(h.Geo(), h.V()) && InRange(h.Geo(), Onward(phi, t.f))
    ensures var done := Before(chunk, |chunk|);
      KeptUp(h.Geo(), vs, h.V(), Onward(phi, t.f), live, h.pinnedCells, from, dest, rest - done,
             CardRoots(h.Geo(), vs, cardsS, scan, from), rootsS, roots, ready, hidden,
             straight && NoBack(h.Geo(), vs, live, h.pinnedCells, done, rest - done))
  {
    hide Starts, HeapOk, Placed, TiledSoFar, Emptied, CopySoFar, ChunkStep, MovableIn, Marks, Phase2Cells, PinsCarded,
      BlockCarded, RootsMoved, LiveSet, Survives, IsObj, Before, Sealed, GeoOk, WellPaired, ClosedHeap, GraphKept,
      GraphReady, NoBack, RestLayouts, FieldsTracked, RootsTracked, RestWords, Broken, AllUnseen, CardedSoFar,
      OnlyIntoDest, CardsTracked, CardRoots, InPass;
    var g, pins, done := h.Geo(), h.pinnedCells, Before(chunk, |chunk|);
    var touched := Phase2Cells(g, t.v1, t.cards1, scan, from, dest, pins);
    BeforeIn(chunk, rest);
    PlacedRest(g, vs, v0, phi, live, pins, from, dest, rest);
    ChunkShapes(g, v0, t.v1, t.v2, h.V(), t.f, touched, done, pins, dest);
    LayoutsStep(g, vs, v0, t.v1, t.v2, h.V(), t.f, touched, from, dest, rest, done, pins);
    FieldsStep(g, vs, v0, t.v1, t.v2, h.V(), phi, live, pins, from, dest, rest, t.f, done, t.cards1, scan,
      straight);
    RootsFollow(g, vs, v0, t.v1, t.v2, h.V(), phi, live, pins, from, dest, rest, t.f, touched, done, rootsS, roots0,
      roots);
    NowInPass(h, vs, cardsS, v0, cards0, roots0, roots, phi, live, marks, from, dest, rest, chunk, scan, t);
    CardsStep(g, vs, v0, t.v1, t.v2, h.V(), phi, live, pins, from, dest, rest, t.f, done, marks, cardsS, t.cards1,
        scan);
    if ready && (from == dest || (straight && NoBack(g, vs, live, pins, done, rest - done))) {
      GraphChunk(h, vs, cardsS, v0, cards0, rootsS, roots0, roots, phi, live, marks, from, dest, rest, chunk, scan, t);
    }
    if from != dest && hidden {
      BrokenStep(g, vs, v0, t.v1, t.v2, h.V(), phi, live, pins, from, dest, rest, t.f, done, t.cards1, scan, straight);
    }
  }
}
