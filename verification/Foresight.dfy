/** The heap after a pass from G0 to G1, told beforehand: what the second pass of a cascade will
    have to do, and whether its card scan will come through. */
module Foresight {
  import opened Bits
  import opened Options
  import opened Bitmaps
  import opened Pages
  import opened Objects
  import opened PageHeaps
  import opened Moves
  import opened Demands
  import opened Copying
  import opened Reclaiming
  import opened Graphs
  import opened Placement
  import opened Passes
  import opened PassGraph
  import opened PassSteps
  import opened PassStates
  import opened Misreads
  import opened Plans
  import opened PassResults
  import opened Likeness

  /** The heap between two passes, and how objects got there. */
  datatype Halfway = Halfway(view: View, regions: seq<AllocRegion>, shelf: seq<nat>, cards: seq<bool>,
                             roots: seq<u64>, psi: map<nat, nat>)

  // -- The image of a heap --------------------------------------------------

  /** Where the objects of `live` are once those in `from` have gone where `at` says. */
  function Whither(v: View, live: set<nat>, from: Generation, at: map<nat, nat>): (phi: map<nat, nat>)
    ensures phi.Keys == live
    ensures forall s | s in live ::
              phi[s] == if s / PAGE_CELLS < |v.descs| && GenAt(v, s) == from && s in at then at[s] else s
  {
    map s | s in live :: if s / PAGE_CELLS < |v.descs| && GenAt(v, s) == from && s in at then at[s] else s
  }

  /** The word `w`, following its target. */
  ghost function Led(g: Geometry, phi: map<nat, nat>, w: u64): u64
    requires GeoOk(g)
  {
    if InHeap(g, w) && CellOf(g, w) in phi && phi[CellOf(g, w)] < PAGE_CELLS * g.nPages
    then Aimed(g, w, phi[CellOf(g, w)]) else w
  }

  /** Offset `i` of the object first at `s` comes to lie at `c`. */
  predicate LiesAt(g: Geometry, v: View, phi: map<nat, nat>, s: nat, i: nat, c: nat) {
    && s in phi && s < |v.starts| == |v.cells| && s + i < |v.cells|
    && i < SizeOf(g, v, s) && phi[s] + i == c
  }

  ghost function ImageCell(g: Geometry, v: View, phi: map<nat, nat>, c: nat): u64
    requires GeoOk(g)
  {
    if exists s: nat, i: nat :: LiesAt(g, v, phi, s, i, c) then
      var s: nat, i: nat :| LiesAt(g, v, phi, s, i, c);
      if IsPtrOff(g, v, s, i) then Led(g, phi, v.cells[s + i]) else v.cells[s + i]
    else 0
  }

  ghost function ImageStart(v: View, phi: map<nat, nat>, c: nat): Start {
    if exists s :: s in phi && s < |v.starts| && phi[s] == c then
      var s :| s in phi && s < |v.starts| && phi[s] == c;
      v.starts[s]
    else NoStart
  }

  /** The objects of `v` in the domain of `phi`, moved by it, and nothing else. */
  ghost function ImageView(g: Geometry, v: View, phi: map<nat, nat>, descs: seq<PageDesc>): (w: View)
    requires GeoOk(g)
    ensures |w.cells| == |v.cells| && |w.starts| == |v.starts| && w.descs == descs
    ensures forall c | 0 <= c < |v.cells| :: w.cells[c] == ImageCell(g, v, phi, c)
    ensures forall c | 0 <= c < |v.starts| :: w.starts[c] == ImageStart(v, phi, c)
  {
    View(seq(|v.cells|, c requires 0 <= c < |v.cells| => ImageCell(g, v, phi, c)),
         seq(|v.starts|, c requires 0 <= c < |v.starts| => ImageStart(v, phi, c)), descs)
  }

  lemma LedAlike(g: Geometry, phi: map<nat, nat>, a: u64, b: u64)
    requires GeoOk(g) && InRange(g, phi) && WordImage(g, phi, a, b)
    ensures WordAlike(g, b, Led(g, phi, a))
  {
    if InHeap(g, a) { AimLaw(g, a, phi[CellOf(g, a)]); }
  }

  /** Objects of the image do not overlap, so a cell belongs to one offset of one object. */
  lemma LiesOnce(g: Geometry, v: View, w: View, phi: map<nat, nat>, s: nat, i: nat, t: nat, j: nat, c: nat)
    requires GeoOk(g) && HeapOk(g, w) && Iso(g, v, w, phi)
    requires LiesAt(g, v, phi, s, i, c) && LiesAt(g, v, phi, t, j, c)
    ensures s == t && i == j
  {
    hide HeapOk, SameShape, LayoutAt, FieldImage, IsPtrOff;
    assert ObjImage(g, v, w, phi, s) && ObjImage(g, v, w, phi, t);
    ImageOwns(g, v, w, phi, s, i);
    ImageOwns(g, v, w, phi, t, j);
  }

  lemma ImageOwns(g: Geometry, v: View, w: View, phi: map<nat, nat>, s: nat, i: nat)
    requires GeoOk(g) && HeapOk(g, w) && |v.starts| == |v.cells| && InRange(g, phi) && s in phi
    requires |w.starts| == |w.cells| && SameShape(g, v, w, s, phi[s]) && s < |v.starts| && i < SizeOf(g, v, s)
    ensures phi[s] + i < |w.starts| && Owner(w.starts, phi[s] + i) == Some(phi[s])
  {
    assert ObjOk(g, w, phi[s]);
    ExtentOwner(g, w, phi[s], i);
  }

  lemma ImageCellAt(g: Geometry, v: View, w: View, phi: map<nat, nat>, s: nat, i: nat)
    requires GeoOk(g) && HeapOk(g, w) && Iso(g, v, w, phi) && s in phi && LiesAt(g, v, phi, s, i, phi[s] + i)
    ensures ImageCell(g, v, phi, phi[s] + i) == if IsPtrOff(g, v, s, i) then Led(g, phi,
        v.cells[s + i]) else v.cells[s + i]
  {
    hide HeapOk, Iso, IsPtrOff, Led;
    var c := phi[s] + i;
    forall t: nat, j: nat | LiesAt(g, v, phi, t, j, c)
      ensures t == s && j == i { LiesOnce(g, v, w, phi, s, i, t, j, c); }
  }

  lemma ImageStartAt(g: Geometry, v: View, w: View, phi: map<nat, nat>, c: nat)
    requires GeoOk(g) && Iso(g, v, w, phi) && AllObjs(w) == phi.Values && c < |w.starts| && c / PAGE_CELLS < |w.descs|
    requires GenAt(w, c) != Free
    ensures ImageStart(v, phi, c) == w.starts[c]
  {
    hide SizeOf, LayoutAt, FieldImage, IsPtrOff;
    if w.starts[c] != NoStart {
      assert c in AllObjs(w);
      var s :| s in phi && phi[s] == c;
      assert ObjImage(g, v, w, phi, s);
    }
    forall s | s in phi && phi[s] == c ensures s < |v.starts| && v.starts[s] == w.starts[c] {
      assert ObjImage(g, v, w, phi, s);
    }
    if s :| s in phi && s < |v.starts| && phi[s] == c {
      assert c in phi.Values && c in AllObjs(w);
    }
  }

  lemma ImageObj(g: Geometry, v: View, w: View, phi: map<nat, nat>, descs: seq<PageDesc>, s: nat)
    requires GeoOk(g) && HeapOk(g, v) && HeapOk(g, w) && Iso(g, v, w, phi) && s in phi
    ensures phi[s] < |w.starts| && |w.starts| == |w.cells| == |v.cells|
    ensures ObjAlike(g, w, ImageView(g, v, phi, descs), phi[s])
  {
    hide HeapOk, LayoutAt, FieldImage, IsPtrOff, Led, ImageCell, ImageStart, WordAlike;
    var x, t := ImageView(g, v, phi, descs), phi[s];
    assert ObjImage(g, v, w, phi, s);
    ShapeFit(g, v, w, s, t);
    ShapeOffsets(g, v, w, s, t, 0);
    if w.starts[t] == HeaderStart {
      WholeAt(g, v, s);
      HeaderWord(g, v, s);
      ImageCellAt(g, v, w, phi, s, 0);
      assert Field(w, t, 0) == Field(v, s, 0);
    }
    forall i: nat | i < SizeOf(g, w, t) && IsPtrOff(g, w, t, i) && t + i < |w.cells|
      ensures WordAlike(g, Field(w, t, i), Field(x, t, i))
    {
      ShapeOffsets(g, v, w, s, t, i);
      ImageCellAt(g, v, w, phi, s, i);
      FieldLed(g, v, w, phi, s, i);
    }
  }

  lemma FieldLed(g: Geometry, v: View, w: View, phi: map<nat, nat>, s: nat, i: nat)
    requires GeoOk(g) && InRange(g, phi) && |v.starts| == |v.cells| && |w.starts| == |w.cells| && s in phi
    requires ObjImage(g, v, w, phi, s) && s < |v.starts| && i < SizeOf(g, v, s) && IsPtrOff(g, v, s, i)
    ensures s + i < |v.cells| && phi[s] + i < |w.cells|
    ensures WordAlike(g, Field(w, phi[s], i), Led(g, phi, v.cells[s + i]))
  {
    hide LayoutAt, IsPtrOff, Led, WordAlike, WordImage;
    ShapeOffsets(g, v, w, s, phi[s], i);
    assert FieldImage(g, phi, IsPtrOff(g, v, s, i), Field(v, s, i), Field(w, phi[s], i));
    LedAlike(g, phi, Field(v, s, i), Field(w, phi[s], i));
  }

  lemma HeaderWord(g: Geometry, v: View, s: nat)
    requires GeoOk(g) && HeapOk(g, v) && IsObj(v, s) && v.starts[s] == HeaderStart
    ensures s < |v.cells| && !IsPtrOff(g, v, s, 0)
  {
    assert ObjOk(g, v, s);
  }

  /** The image is like the heap itself. */
  lemma ImageAlike(g: Geometry, v: View, w: View, phi: map<nat, nat>, descs: seq<PageDesc>)
    requires GeoOk(g) && HeapOk(g, v) && HeapOk(g, w) && Iso(g, v, w, phi) && AllObjs(w) == phi.Values
    requires DescsAlike(w.descs, descs)
    ensures Alike(g, w, ImageView(g, v, phi, descs))
  {
    hide HeapOk, ObjImage, ObjAlike, ImageCell, ImageStart, ImageView;
    assert Shaped(g, v) && Shaped(g, w);
    forall c: nat | c < |w.starts| && GenAt(w, c) != Free ensures ImageStart(v, phi, c) == w.starts[c] {
      ImageStartAt(g, v, w, phi, c);
    }
    forall t: nat | t < |w.starts| && IsObj(w, t) ensures ObjAlike(g, w, ImageView(g, v, phi, descs), t) {
      assert t in AllObjs(w);
      var s :| s in phi && phi[s] == t;
      ImageObj(g, v, w, phi, descs, s);
    }
  }

  // -- The heap after the first pass ----------------------------------------

  /** The pages after a pass from G0 to G1 without pins that leaves those of `shelf` Free. */
  function AfterDescs(descs: seq<PageDesc>, shelf: seq<nat>): (d: seq<PageDesc>)
    ensures |d| == |descs|
  {
    seq(|descs|, p requires 0 <= p < |descs| =>
      if p in shelf then FREE_DESC
      else if descs[p].generation == G0 || descs[p].generation == Free then descs[p].(generation := G1, kind := Boxed)
      else descs[p])
  }

  /** What a pass from G0 to G1 that keeps `live`, without pins and straight, leaves for the next one. */
  ghost function Foreseen(g: Geometry, v: View, regions: seq<AllocRegion>, cards: seq<bool>, roots: seq<u64>,
                          live: set<nat>, first: Plan): (half: Halfway)
    requires GeoOk(g) && Shaped(g, v) && |regions| == 6
    ensures Shaped(g, half.view) && |half.regions| == 6
  {
    var psi := Whither(v, live, G0, first.demand.at);
    Halfway(ImageView(g, v, psi, AfterDescs(v.descs, first.demand.shelf)), Afresh(Afresh(regions, G0), G1),
            first.demand.shelf,
            seq(|cards|, k requires 0 <= k < |cards| => cards[k] || CardOwed(g, v, psi, G0, {}, k)),
            seq(|roots|, i requires 0 <= i < |roots| => Led(g, psi, roots[i])), psi)
  }

  /** What the pass from G1 to Tenured that comes next, its card scan going by `snapshot`, is to keep. */
  ghost function SecondLive(g: Geometry, half: Halfway, snapshot: seq<PageDesc>, pins: set<nat>): set<nat>
    requires Shaped(g, half.view)
  {
    ToKeep(g, half.view, half.cards, half.roots, Some(snapshot), G1, pins)
  }

  ghost function SecondPlan(g: Geometry, half: Halfway, snapshot: seq<PageDesc>, pins: set<nat>): Plan
    requires Shaped(g, half.view) && |half.regions| == 6
  {
    PlanPass(g, half.view, half.regions, half.shelf, SecondLive(g, half, snapshot, pins), pins, G1, Tenured)
  }

  /** Its card scan is led to a marker that it cannot take for a header. */
  ghost predicate SecondGarbled(g: Geometry, half: Halfway, snapshot: seq<PageDesc>, pins: set<nat>)
    requires GeoOk(g) && Shaped(g, half.view) && |half.regions| == 6
  {
    Garbled(g, half.view, half.cards, Some(snapshot), G1, SecondPlan(g, half, snapshot, pins).demand.at,
            Members(PagesIn(half.view.descs, G1)))
  }

  lemma {:induction false} CellsOthers(g: Geometry, v: View, move: set<nat>, p: nat, x: nat, d: Demand)
    ensures PackCells(g, v, move, p, x, d).others == d.others
    decreases x
  {
    if x > PAGE_CELLS * p { CellsOthers(g, v, move, p, x - 1, d); }
  }

  lemma {:induction false} ChunkOthers(g: Geometry, v: View, move: set<nat>, from: Generation, chunk: seq<nat>, i: nat,
                                       d: Demand)
    requires i <= |chunk|
    ensures PackChunk(g, v, move, from, chunk, i, d).others == d.others
    decreases i
  {
    hide PackCells;
    if i > 0 {
      ChunkOthers(g, v, move, from, chunk, i - 1, d);
      CellsOthers(g, v, move, chunk[i - 1], PAGE_CELLS * (chunk[i - 1] + 1),
        PackChunk(g, v, move, from, chunk, i - 1, d));
    }
  }

  /** The plan leaves the regions of other generations alone. */
  lemma {:induction false} PlanOthers(g: Geometry, v: View, live: set<nat>, pins: set<nat>, from: Generation,
                                      dest: Generation, pages: seq<nat>, i: nat, free: nat, d: Demand)
    requires i <= |pages|
    ensures PlanFrom(g, v, live, pins, from, dest, pages, i, free, d).demand.others == d.others
    decreases |pages| - i
  {
    hide PackChunk, Cut, NoBack, PlanFrom, Released, Pending;
    if i == |pages| {
      PlanEnd(g, v, live, pins, from, dest, pages, free, d);
    } else {
      var n := Cut(free, |Pending(v.descs, pins, from, dest, Tail(pages, i))|, |pages| - i);
      var chunk := pages[i..i + n];
      var asked, freed := PackChunk(g, v, live - pins, from, chunk, n, d), Released(v.descs, pins, chunk);
      PlanNext(g, v, live, pins, from, dest, pages, i, free, d, n, chunk, asked, freed);
      ChunkOthers(g, v, live - pins, from, chunk, n, d);
      if asked.Pages() <= free {
        PlanOthers(g, v, live, pins, from, dest, pages, i + n, free - asked.Pages() + |freed|, asked.Next(freed));
      }
    }
  }

  // -- Foreseen and found ---------------------------------------------------

  /** What the first pass is known to have left. */
  ghost predicate Found(g: Geometry, v: View, regions: seq<AllocRegion>, cards: seq<bool>, roots: seq<u64>,
                        live: set<nat>, first: Plan, mid: Halfway) {
    && GeoOk(g) && HeapOk(g, v) && HeapOk(g, mid.view) && NoLarge(v) && NoLarge(mid.view) && Shaped(g, v)
    && NoPinBytes(v) && NoPinBytes(mid.view) && |regions| == 6 && |mid.regions| == 6
    && PassResult(g, v, mid.view, mid.psi, live, {}, G0, G1) && AsPut(v, mid.psi, {}, G0, first.demand.at)
    && TablesAsPlanned(mid.regions, mid.shelf, G1, first.demand)
    && first.demand.others == Afresh(Afresh(regions, G0), G1)
    && (forall p :: p in mid.shelf <==> 0 <= p < |mid.view.descs| && mid.view.descs[p].generation == Free)
    && CardedSoFar(g, v, mid.psi, G0, {}, cards, mid.cards) && GraphKept(g, v, mid.view, mid.psi, roots, mid.roots)
  }

  lemma FoundPsi(g: Geometry, v: View, w: View, psi: map<nat, nat>, live: set<nat>, at: map<nat, nat>)
    requires PassResult(g, v, w, psi, live, {}, G0, G1) && AsPut(v, psi, {}, G0, at)
    ensures psi == Whither(v, live, G0, at)
  {
    hide SameShape;
    forall s | s in live ensures psi[s] == Whither(v, live, G0, at)[s] {
      assert InPlace(g, v, w, {}, G0, G1, {}, s, psi[s]);
      ShapeFit(g, v, w, s, psi[s]);
    }
  }

  lemma FoundDescs(g: Geometry, v: View, w: View, psi: map<nat, nat>, live: set<nat>, shelf: seq<nat>)
    requires PassResult(g, v, w, psi, live, {}, G0, G1) && NoLarge(v) && NoLarge(w) && NoPinBytes(v) && NoPinBytes(w)
    requires forall p :: p in shelf <==> 0 <= p < |w.descs| && w.descs[p].generation == Free
    ensures DescsAlike(w.descs, AfterDescs(v.descs, shelf))
  {
    hide InPlace;
  }

  lemma FoundCards(g: Geometry, v: View, psi: map<nat, nat>, before: seq<bool>, after: seq<bool>)
    requires Shaped(g, v) && CardedSoFar(g, v, psi, G0, {}, before, after)
    ensures after == seq(|before|, k requires 0 <= k < |before| => before[k] || CardOwed(g, v, psi, G0, {}, k))
  {
    hide SizeOf;
    forall k | 0 <= k < |before| && CardOwed(g, v, psi, G0, {}, k) ensures after[k] {
      var s :| s in psi && s < |v.starts| && GenAt(v, s) == G0 && s / PAGE_CELLS !in {}
          && CoversCard(psi[s], SizeOf(g, v, s), k);
      assert BlockCarded(after, psi[s], SizeOf(g, v, s));
    }
    hide CardOwed;
  }

  /** What was foreseen is found, as far as the second pass can tell. */
  lemma ForeseenIsFound(g: Geometry, v: View, regions: seq<AllocRegion>, cards: seq<bool>, roots: seq<u64>,
                        live: set<nat>, first: Plan, mid: Halfway)
    requires Found(g, v, regions, cards, roots, live, first, mid)
    ensures GeoOk(g) && Shaped(g, v) && |regions| == 6 && Shaped(g, mid.view)
    ensures var half := Foreseen(g, v, regions, cards, roots, live, first);
      && half.psi == mid.psi && half.cards == mid.cards && half.shelf == mid.shelf
      && Alike(g, mid.view, half.view) && |half.roots| == |mid.roots|
      && (forall i | 0 <= i < |mid.roots| :: WordAlike(g, mid.roots[i], half.roots[i]))
      && Afresh(mid.regions, G1) == Afresh(half.regions, G1)
  {
    hide HeapOk, PassResult, AsPut, CardedSoFar, Iso, NoLarge, NoPinBytes, CardOwed, Alike, WordAlike, ImageView,
      AfterDescs, WordImage, Led;
    ResultObjects(g, v, mid.view, mid.psi, live, {}, G0, G1);
    FoundPsi(g, v, mid.view, mid.psi, live, first.demand.at);
    FoundDescs(g, v, mid.view, mid.psi, live, mid.shelf);
    FoundCards(g, v, mid.psi, cards, mid.cards);
    ImageAlike(g, v, mid.view, mid.psi, AfterDescs(v.descs, mid.shelf));
    IsoRange(g, v, mid.view, mid.psi);
    forall i | 0 <= i < |roots| ensures WordAlike(g, mid.roots[i], Led(g, mid.psi, roots[i])) {
      LedAlike(g, mid.psi, roots[i], mid.roots[i]);
    }
  }

  lemma IsoRange(g: Geometry, v: View, w: View, phi: map<nat, nat>)
    requires GeoOk(g) && Iso(g, v, w, phi)
    ensures InRange(g, phi) && Shaped(g, v) && Shaped(g, w)
  {
    hide ObjImage;
  }

  /** So is the plan of the second pass, and whether its card scan comes through. */
  lemma SecondForeseen(g: Geometry, v: View, regions: seq<AllocRegion>, cards: seq<bool>, roots: seq<u64>,
                       live: set<nat>, first: Plan, mid: Halfway, snapshot: seq<PageDesc>)
    requires Found(g, v, regions, cards, roots, live, first, mid)
    ensures GeoOk(g) && Shaped(g, v) && |regions| == 6 && Shaped(g, mid.view) && |mid.regions| == 6
    ensures var half := Foreseen(g, v, regions, cards, roots, live, first);
      && SecondLive(g, half, snapshot, {}) == SecondLive(g, mid, snapshot, {})
      && SecondPlan(g, half, snapshot, {}) == SecondPlan(g, mid, snapshot, {})
      && (PlainHeaders(g, mid.view) ==>
            (SecondGarbled(g, half, snapshot, {}) <==> SecondGarbled(g, mid, snapshot, {})))
  {
    hide HeapOk, PassResult, AsPut, CardedSoFar, GraphKept, NoLarge, NoPinBytes, Alike, WordAlike, Foreseen, Afresh,
      Garbled, PlainHeaders, PlanPass, ToKeep, TablesAsPlanned, PagesIn, Members, GeoOk;
    ForeseenIsFound(g, v, regions, cards, roots, live, first, mid);
    var half := Foreseen(g, v, regions, cards, roots, live, first);
    KeepAlike(g, mid.view, half.view, mid.cards, mid.roots, half.roots, Some(snapshot), G1);
    KeptIsObj(g, mid.view, mid.cards, mid.roots, Some(snapshot), G1, {});
    PassAlike(g, mid.view, half.view, mid.regions, half.regions, mid.shelf, SecondLive(g, mid, snapshot, {}), G1,
      Tenured);
    if PlainHeaders(g, mid.view) {
      PagesInUse(mid.view, G1);
      GarbledAlike(g, mid.view, half.view, mid.cards, Some(snapshot), G1, SecondPlan(g, mid, snapshot, {}).demand.at,
        Members(PagesIn(mid.view.descs, G1)));
    }
  }

  lemma PagesInUse(v: View, gen: Generation)
    requires gen != Free
    ensures forall p | p in Members(PagesIn(v.descs, gen)) :: p < |v.descs| && v.descs[p].generation != Free
  {
  }
}
