/** Two heaps that hold the same objects at the same places, with pointers that lead to the same
    cells: a pass has the same to do on both. */
module Likeness {
  import opened Bits
  import opened Options
  import opened Bitmaps
  import opened Layouts
  import opened Pages
  import opened Objects
  import opened PageHeaps
  import opened Marking
  import opened Cards
  import opened Rewrite
  import opened Demands
  import opened Reclaiming
  import opened EvacMarking
  import opened PassGraph
  import opened Misreads
  import opened Plans
  import opened PassResults

  /** Both words point to the same cell in the same manner, or neither points into the heap. */
  predicate WordAlike(g: Geometry, a: u64, b: u64) {
    && (InHeap(g, a) <==> InHeap(g, b))
    && (InHeap(g, a) ==> CellOf(g, a) == CellOf(g, b)
                         && (g.layout.classify(a).PointerCons? <==> g.layout.classify(b).PointerCons?))
  }

  ghost predicate DescsAlike(a: seq<PageDesc>, b: seq<PageDesc>) {
    && |a| == |b|
    && forall p | 0 <= p < |a| ::
         a[p].generation == b[p].generation && (a[p].kind == Large <==> b[p].kind == Large) && (a[p].HasPins() <==>
             b[p].HasPins())
  }

  /** The objects at `s` have the same header and pointers that lead to the same cells. */
  ghost predicate ObjAlike(g: Geometry, v: View, w: View, s: nat)
    requires s < |v.starts| == |v.cells| == |w.cells|
  {
    && (v.starts[s] == HeaderStart ==> w.cells[s] == v.cells[s])
    && forall i: nat | i < SizeOf(g, v, s) && IsPtrOff(g, v, s, i) && s + i < |v.cells| ::
         WordAlike(g, Field(v, s, i), Field(w, s, i))
  }

  ghost predicate Alike(g: Geometry, v: View, w: View) {
    && Shaped(g, v) && Shaped(g, w) && DescsAlike(v.descs, w.descs)
    && (forall c: nat | c < |v.starts| && GenAt(v, c) != Free :: w.starts[c] == v.starts[c])
    && (forall s: nat | s < |v.starts| && IsObj(v, s) :: ObjAlike(g, v, w, s))
  }

  lemma AlikeObj(g: Geometry, v: View, w: View, s: nat)
    requires Alike(g, v, w)
    ensures IsObj(w, s) <==> IsObj(v, s)
    ensures IsObj(v, s) ==>
              && s < |v.starts| && s < |v.cells| && s < |w.starts| && s < |w.cells| && w.starts[s] == v.starts[s]
              && LayoutAt(g, w, s) == LayoutAt(g, v, s) && GenAt(w, s) == GenAt(v, s)
  {
    if IsObj(v, s) { assert ObjAlike(g, v, w, s); }
  }

  lemma FollowsAlike(g: Geometry, v: View, w: View, gen: Generation, a: u64, b: u64)
    requires Alike(g, v, w) && WordAlike(g, a, b)
    ensures Follows(g, w, gen, b) <==> Follows(g, v, gen, a)
  {
    if InHeap(g, a) { AlikeObj(g, v, w, CellOf(g, a)); }
  }

  /** A pointer offset of an object of a well-formed heap. */
  lemma FieldAlike(g: Geometry, v: View, w: View, s: nat, i: nat)
    requires HeapOk(g, v) && Alike(g, v, w) && IsObj(v, s) && IsPtrOff(g, v, s, i)
    ensures i < SizeOf(g, v, s) && s + i < |v.cells| && s + i < |w.cells|
    ensures WordAlike(g, v.cells[s + i], w.cells[s + i])
  {
    assert ObjOk(g, v, s) && ObjAlike(g, v, w, s);
    ExtentOwner(g, v, s, i);
    assert WordAlike(g, Field(v, s, i), Field(w, s, i));
  }

  lemma EdgesAlike(g: Geometry, v: View, w: View, gen: Generation, s: nat, t: nat)
    requires HeapOk(g, v) && Alike(g, v, w) && IsObj(v, s)
    ensures Edge(g, w, gen, s, t) <==> Edge(g, v, gen, s, t)
  {
    hide HeapOk, Alike, WordAlike, LayoutAt, Follows;
    AlikeObj(g, v, w, s);
    forall i: nat ensures EdgeAt(g, w, gen, s, i, t) <==> EdgeAt(g, v, gen, s, i, t) {
      if IsPtrOff(g, v, s, i) {
        FieldAlike(g, v, w, s, i);
        FollowsAlike(g, v, w, gen, v.cells[s + i], w.cells[s + i]);
        SameTarget(g, v, gen, v.cells[s + i], w.cells[s + i]);
      }
    }
  }

  lemma SameTarget(g: Geometry, v: View, gen: Generation, a: u64, b: u64)
    requires WordAlike(g, a, b)
    ensures Follows(g, v, gen, a) ==> InHeap(g, a) && InHeap(g, b) && CellOf(g, a) == CellOf(g, b)
  {
  }

  lemma {:induction false} PathObjects(g: Geometry, v: View, gen: Generation, seeds: set<nat>, path: seq<nat>, k: nat)
    requires IsPath(g, v, gen, seeds, path) && k < |path| && forall s | s in seeds :: IsObj(v, s)
    ensures IsObj(v, path[k])
  {
    if k > 0 { assert Edge(g, v, gen, path[k - 1], path[k]); }
  }

  lemma ReachAlike(g: Geometry, v: View, w: View, gen: Generation, seeds: set<nat>, c: nat)
    requires HeapOk(g, v) && Alike(g, v, w) && forall s | s in seeds :: IsObj(v, s)
    ensures Reachable(g, w, gen, seeds, c) <==> Reachable(g, v, gen, seeds, c)
  {
    hide HeapOk, Alike, Edge, IsObj;
    forall s | s in seeds ensures IsObj(w, s) { AlikeObj(g, v, w, s); }
    if Reachable(g, v, gen, seeds, c) {
      var path :| IsPath(g, v, gen, seeds, path) && path[|path| - 1] == c;
      forall k | 0 <= k < |path| - 1 ensures Edge(g, w, gen, path[k], path[k + 1]) {
        PathObjects(g, v, gen, seeds, path, k);
        EdgesAlike(g, v, w, gen, path[k], path[k + 1]);
      }
      assert IsPath(g, w, gen, seeds, path);
    }
    if Reachable(g, w, gen, seeds, c) {
      var path :| IsPath(g, w, gen, seeds, path) && path[|path| - 1] == c;
      forall k | 0 <= k < |path| - 1 ensures Edge(g, v, gen, path[k], path[k + 1]) {
        PathObjects(g, w, gen, seeds, path, k);
        AlikeObj(g, v, w, path[k]);
        EdgesAlike(g, v, w, gen, path[k], path[k + 1]);
      }
      assert IsPath(g, v, gen, seeds, path);
    }
  }

  // -- What is kept ---------------------------------------------------------

  lemma RootSeedsAlike(g: Geometry, v: View, w: View, gen: Generation, a: seq<u64>, b: seq<u64>)
    requires Alike(g, v, w) && |a| == |b| && forall i | 0 <= i < |a| :: WordAlike(g, a[i], b[i])
    ensures SeedCells(g, w, gen, WordsOf(b)) == SeedCells(g, v, gen, WordsOf(a))
  {
    hide Alike, WordAlike, Follows;
    forall i | 0 <= i < |a|
      ensures Follows(g, w, gen, b[i]) <==> Follows(g, v, gen, a[i])
      ensures Follows(g, v, gen, a[i]) ==> InHeap(g, a[i]) && InHeap(g, b[i]) && CellOf(g, a[i]) == CellOf(g, b[i])
    {
      FollowsAlike(g, v, w, gen, a[i], b[i]);
      SameTarget(g, v, gen, a[i], b[i]);
    }
    SeedsWithin(g, v, w, gen, a, b);
    SeedsWithin(g, w, v, gen, b, a);
  }

  lemma SeedsWithin(g: Geometry, v: View, w: View, gen: Generation, a: seq<u64>, b: seq<u64>)
    requires |a| == |b|
    requires forall i | 0 <= i < |a| && Follows(g, v, gen, a[i]) ::
               Follows(g, w, gen, b[i]) && InHeap(g, a[i]) && InHeap(g, b[i]) && CellOf(g, b[i]) == CellOf(g, a[i])
    ensures SeedCells(g, v, gen, WordsOf(a)) <= SeedCells(g, w, gen, WordsOf(b))
  {
    hide InHeap, CellOf;
    forall c | c in SeedCells(g, v, gen, WordsOf(a)) ensures c in SeedCells(g, w, gen, WordsOf(b)) {
      var x :| x in WordsOf(a) && Follows(g, v, gen, x) && CellOf(g, x) == c;
      var i :| 0 <= i < |a| && a[i] == x;
      assert b[i] in WordsOf(b);
      SeedOf(g, w, gen, WordsOf(b), b[i]);
    }
  }

  lemma VisitedSeedsAlike(g: Geometry, v: View, w: View, gen: Generation, visited: set<nat>)
    requires Alike(g, v, w)
    requires forall c | c in visited :: c < |v.cells| && c < |w.cells| && WordAlike(g, v.cells[c], w.cells[c])
    ensures SeedCells(g, w, gen, WordsAt(w, visited)) == SeedCells(g, v, gen, WordsAt(v, visited))
  {
    hide Alike, WordAlike, Follows;
    forall c | c in visited
      ensures Follows(g, w, gen, w.cells[c]) <==> Follows(g, v, gen, v.cells[c])
      ensures Follows(g, v, gen, v.cells[c]) ==>
                InHeap(g, v.cells[c]) && InHeap(g, w.cells[c]) && CellOf(g, v.cells[c]) == CellOf(g, w.cells[c])
    {
      FollowsAlike(g, v, w, gen, v.cells[c], w.cells[c]);
      SameTarget(g, v, gen, v.cells[c], w.cells[c]);
    }
    VisitedWithin(g, v, w, gen, visited);
    VisitedWithin(g, w, v, gen, visited);
  }

  lemma VisitedWithin(g: Geometry, v: View, w: View, gen: Generation, visited: set<nat>)
    requires forall c | c in visited :: c < |v.cells| && c < |w.cells|
    requires forall c | c in visited && Follows(g, v, gen, v.cells[c]) ::
               && Follows(g, w, gen, w.cells[c]) && InHeap(g, v.cells[c]) && InHeap(g, w.cells[c])
               && CellOf(g, w.cells[c]) == CellOf(g, v.cells[c])
    ensures SeedCells(g, v, gen, WordsAt(v, visited)) <= SeedCells(g, w, gen, WordsAt(w, visited))
  {
    hide InHeap, CellOf;
    forall t | t in SeedCells(g, v, gen, WordsAt(v, visited)) ensures t in SeedCells(g, w, gen, WordsAt(w, visited)) {
      var x :| x in WordsAt(v, visited) && Follows(g, v, gen, x) && CellOf(g, x) == t;
      var c :| c in visited && c < |v.cells| && v.cells[c] == x;
      assert w.cells[c] in WordsAt(w, visited);
      SeedOf(g, w, gen, WordsAt(w, visited), w.cells[c]);
    }
  }

  /** The card scan visits the same cells, and finds alike words there. */
  lemma CardAlike(g: Geometry, v: View, w: View, k: nat)
    requires HeapOk(g, v) && Alike(g, v, w) && k < CARDS_PER_PAGE * g.nPages
    ensures CardVisits(g, w, k) == CardVisits(g, v, k)
    ensures forall c | c in CardVisits(g, v, k) ::
              c < |v.cells| && c < |w.cells| && WordAlike(g, v.cells[c], w.cells[c])
  {
    hide HeapOk, WordAlike, LayoutAt;
    CardOnPage(k);
    var p := k / CARDS_PER_PAGE;
    assert (PAGE_CELLS * p) / PAGE_CELLS == p && GenAt(v, CARD_CELLS * k) == GenAt(w, CARD_CELLS * k);
    if GenAt(v, CARD_CELLS * k) != Free {
      forall c: nat | c < |v.starts| && c / PAGE_CELLS == p
        ensures w.starts[c] == v.starts[c] && (v.starts[c] != NoStart ==> LayoutAt(g, w, c) == LayoutAt(g, v, c))
      {
        AlikeObj(g, v, w, c);
      }
      SameVisits(g, v, w, k);
    }
    forall c | c in CardVisits(g, v, k) ensures c < |v.cells| && c < |w.cells| && WordAlike(g, v.cells[c], w.cells[c]) {
      HeapCardWhole(g, v, k);
      CardVisitsPtrs(g, v, k, c);
      var o := Owner(v.starts, c).value;
      assert PtrCellOf(g, v, o, c);
      FieldAlike(g, v, w, o, c - o);
    }
  }

  lemma VisitsAlike(g: Geometry, v: View, w: View, cards: seq<bool>, scan: Option<seq<PageDesc>>, from: Generation)
    requires HeapOk(g, v) && Alike(g, v, w)
    ensures CardRoots(g, w, cards, scan, from) == CardRoots(g, v, cards, scan, from)
    ensures forall c | c in CardRoots(g, v, cards, scan, from) ::
              c < |v.cells| && c < |w.cells| && WordAlike(g, v.cells[c], w.cells[c])
  {
    hide HeapOk, Alike, WordAlike, CardVisits, CardScanned;
    assert Shaped(g, v) && Shaped(g, w) by { AlikeShaped(g, v, w); }
    forall k: nat | k < CARDS_PER_PAGE * g.nPages
      ensures CardVisits(g, w, k) == CardVisits(g, v, k)
      ensures forall c | c in CardVisits(g, v, k) ::
                c < |v.cells| && c < |w.cells| && WordAlike(g, v.cells[c], w.cells[c])
    {
      CardAlike(g, v, w, k);
    }
  }

  lemma AlikeShaped(g: Geometry, v: View, w: View)
    requires Alike(g, v, w)
    ensures Shaped(g, v) && Shaped(g, w) && DescsAlike(v.descs, w.descs)
  {
  }

  /** A pass keeps the same objects. */
  lemma KeepAlike(g: Geometry, v: View, w: View, cards: seq<bool>, a: seq<u64>, b: seq<u64>,
                  scan: Option<seq<PageDesc>>, from: Generation)
    requires HeapOk(g, v) && Alike(g, v, w) && |a| == |b| && forall i | 0 <= i < |a| :: WordAlike(g, a[i], b[i])
    requires Shaped(g, v) && Shaped(g, w)
    ensures ToKeep(g, w, cards, b, scan, from, {}) == ToKeep(g, v, cards, a, scan, from, {})
  {
    hide HeapOk, Alike, WordAlike, CardRoots, SeedCells, Reachable, IsObj;
    VisitsAlike(g, v, w, cards, scan, from);
    var visited := CardRoots(g, v, cards, scan, from);
    RootSeedsAlike(g, v, w, from, a, b);
    VisitedSeedsAlike(g, v, w, from, visited);
    NoPinSeeds(g, v, from, a, visited);
    NoPinSeeds(g, w, from, b, visited);
    var seeds := EvacSeeds(g, v, from, a, visited, {});
    forall s | s in seeds ensures IsObj(v, s) {
      SeedIsObj(g, v, from, WordsOf(a), s);
      SeedIsObj(g, v, from, WordsAt(v, visited), s);
    }
    forall s: nat ensures s in ToKeep(g, w, cards, b, scan, from, {}) <==> s in ToKeep(g, v, cards, a, scan, from, {}) {
      AlikeObj(g, v, w, s);
      ReachAlike(g, v, w, from, seeds, s);
      InAllObjs(v, s);
      InAllObjs(w, s);
    }
  }

  lemma InAllObjs(v: View, s: nat)
    ensures s in AllObjs(v) <==> IsObj(v, s)
    ensures IsObj(v, s) ==> s / PAGE_CELLS < |v.descs|
  {
  }

  lemma NoPinSeeds(g: Geometry, v: View, from: Generation, roots: seq<u64>, visited: set<nat>)
    requires Shaped(g, v)
    ensures EvacSeeds(g, v, from, roots, visited, {}) ==
            SeedCells(g, v, from, WordsOf(roots)) + SeedCells(g, v, from, WordsAt(v, visited))
  {
    assert CrossPinPtrs(g, v, {}, from) == {} && WordsAt(v, {}) == {} && SeedCells(g, v, from, {}) == {};
  }

  lemma SeedIsObj(g: Geometry, v: View, gen: Generation, words: set<u64>, s: nat)
    ensures s in SeedCells(g, v, gen, words) ==> IsObj(v, s)
  {
  }

  // -- The plan and the scan ------------------------------------------------

  lemma PackAlike(g: Geometry, v: View, w: View, live: set<nat>, from: Generation, chunk: seq<nat>, d: Demand)
    requires Alike(g, v, w) && (forall s | s in live :: IsObj(v, s)) && forall p | p in chunk :: p < |v.descs|
    ensures PackChunk(g, w, live, from, chunk, |chunk|, d) == PackChunk(g, v, live, from, chunk, |chunk|, d)
  {
    hide LayoutAt, Alike;
    AlikeShaped(g, v, w);
    forall j | 0 <= j < |chunk|
      ensures chunk[j] < |v.descs| && SameUse(v.descs[chunk[j]], w.descs[chunk[j]])
      ensures SamePacking(g, v, w, live, live, chunk[j])
    {
      assert chunk[j] in chunk;
      forall c: nat | c in live
        ensures c < |v.starts| && c < |v.cells| && c < |w.starts| && c < |w.cells|
        ensures v.starts[c] == w.starts[c] && SizeOf(g, v, c) == SizeOf(g, w, c)
      {
        AlikeObj(g, v, w, c);
      }
    }
    ChunkSame(g, v, w, live, live, from, chunk, |chunk|, d);
  }

  lemma BackAlike(g: Geometry, v: View, w: View, live: set<nat>, chunk: set<nat>, later: set<nat>)
    requires HeapOk(g, v) && Alike(g, v, w) && forall s | s in live :: IsObj(v, s)
    ensures NoBack(g, w, live, {}, chunk, later) <==> NoBack(g, v, live, {}, chunk, later)
  {
    hide HeapOk, LayoutAt, Alike;
    AlikeShaped(g, v, w);
    forall s: nat, i: nat
      ensures BackAt(g, w, live, {}, chunk, later, s, i) <==> BackAt(g, v, live, {}, chunk, later, s, i)
    {
      if s in live {
        AlikeObj(g, v, w, s);
        if IsPtrOff(g, v, s, i) { FieldAlike(g, v, w, s, i); }
      }
    }
    hide BackAt;
  }

  lemma {:induction false} ReleasedAlike(a: seq<PageDesc>, b: seq<PageDesc>, chunk: seq<nat>)
    requires DescsAlike(a, b)
    ensures Released(b, {}, chunk) == Released(a, {}, chunk)
  {
    if chunk != [] { ReleasedAlike(a, b, chunk[..|chunk| - 1]); }
  }

  lemma {:induction false} PlanAlike(g: Geometry, v: View, w: View, live: set<nat>, from: Generation, dest: Generation,
                                     pages: seq<nat>, i: nat, free: nat, d: Demand)
    requires HeapOk(g, v) && Alike(g, v, w) && (forall s | s in live :: IsObj(v, s)) && i <= |pages|
    requires forall p | p in pages :: p < |v.descs|
    ensures PlanFrom(g, w, live, {}, from, dest, pages, i, free, d) == PlanFrom(g, v, live, {}, from, dest, pages, i,
        free, d)
    decreases |pages| - i
  {
    hide HeapOk, Alike, PackChunk, Cut, NoBack, PlanFrom, Released, IsObj;
    if i == |pages| {
      PlanEnd(g, v, live, {}, from, dest, pages, free, d);
      PlanEnd(g, w, live, {}, from, dest, pages, free, d);
    } else {
      AlikeShaped(g, v, w);
      assert Pending(v.descs, {}, from, dest, Tail(pages, i)) == {}
          && Pending(w.descs, {}, from, dest, Tail(pages, i)) == {};
      var n := Cut(free, 0, |pages| - i);
      var chunk := pages[i..i + n];
      forall p | p in chunk ensures p in pages {}
      assert live - {} == live;
      PackAlike(g, v, w, live, from, chunk, d);
      ReleasedAlike(v.descs, w.descs, chunk);
      BackAlike(g, v, w, live, Members(chunk), Tail(pages, i + n));
      var asked, freed := PackChunk(g, v, live, from, chunk, n, d), Released(v.descs, {}, chunk);
      PlanNext(g, v, live, {}, from, dest, pages, i, free, d, n, chunk, asked, freed);
      PlanNext(g, w, live, {}, from, dest, pages, i, free, d, n, chunk, asked, freed);
      if asked.Pages() <= free {
        PlanAlike(g, v, w, live, from, dest, pages, i + n, free - asked.Pages() + |freed|, asked.Next(freed));
      }
    }
  }

  /** A pass over either heap has the same plan. */
  lemma PassAlike(g: Geometry, v: View, w: View, a: seq<AllocRegion>, b: seq<AllocRegion>, shelf: seq<nat>,
                  live: set<nat>, from: Generation, dest: Generation)
    requires HeapOk(g, v) && Alike(g, v, w) && (forall s | s in live :: IsObj(v, s)) && HasRegion(dest, Cons)
    requires |a| == |b| == 6 && Afresh(a, from) == Afresh(b, from)
    ensures PlanPass(g, w, b, shelf, live, {}, from, dest) == PlanPass(g, v, a, shelf, live, {}, from, dest)
    ensures PagesIn(w.descs, from) == PagesIn(v.descs, from)
  {
    hide HeapOk, Alike, PlanFrom, IsObj;
    AlikeShaped(g, v, w);
    SamePagesIn(v.descs, w.descs, from);
    SamePagesIn(v.descs, w.descs, Free);
    PlanAlike(g, v, w, live, from, dest, PagesIn(v.descs, from), 0, CountGen(v.descs, Free),
      FirstDemand(a, shelf, from, dest));
  }

  lemma HeadsAlike(g: Geometry, v: View, w: View, at: map<nat, nat>, p: nat)
    requires GeoOk(g) && Alike(g, v, w) && p < g.nPages && Shaped(g, v) && v.descs[p].generation != Free
    ensures SameHeads(g, WithMarkers(g, v, at), WithMarkers(g, w, at), p)
  {
    hide Marker, Lawful, LayoutAt;
    forall c: nat | c < |v.starts| && c / PAGE_CELLS == p
      ensures w.starts[c] == v.starts[c] && (v.starts[c] == HeaderStart ==> w.cells[c] == v.cells[c])
    {
      if v.starts[c] == HeaderStart { assert IsObj(v, c) && ObjAlike(g, v, w, c); }
    }
  }

  lemma PlainAlike(g: Geometry, v: View, w: View)
    requires Alike(g, v, w) && Shaped(g, v) && Shaped(g, w) && PlainHeaders(g, v)
    ensures PlainHeaders(g, w)
  {
    hide LayoutAt, InHeap;
    forall s: nat | s < |w.starts| && IsObj(w, s) && w.starts[s] == HeaderStart ensures !InHeap(g, w.cells[s]) {
      AlikeObj(g, v, w, s);
      assert ObjAlike(g, v, w, s);
    }
  }

  /** The card scan of either pass comes to the same marker, or to none. */
  lemma GarbledAlike(g: Geometry, v: View, w: View, cards: seq<bool>, scan: Option<seq<PageDesc>>, from: Generation,
                     at: map<nat, nat>, pages: set<nat>)
    requires GeoOk(g) && Alike(g, v, w) && Shaped(g, v) && Shaped(g, w) && PlainHeaders(g, v)
    requires forall p | p in pages :: p < |v.descs| && v.descs[p].generation != Free
    ensures Garbled(g, w, cards, scan, from, at, pages) <==> Garbled(g, v, cards, scan, from, at, pages)
  {
    hide Alike, PlainHeaders, CardLegible, WithMarkers, CardScanned, SameHeads;
    PlainAlike(g, v, w);
    PlainWithMarkers(g, v, at);
    PlainWithMarkers(g, w, at);
    if scan.Some? {
      forall k: nat ensures GarbledCard(g, w, cards, scan.value, from, at, pages, k) <==>
                              GarbledCard(g, v, cards, scan.value, from, at, pages, k)
      {
        if k < CARDS_PER_PAGE * g.nPages && k / CARDS_PER_PAGE in pages {
          HeadsAlike(g, v, w, at, k / CARDS_PER_PAGE);
          CardsAlike(g, WithMarkers(g, v, at), WithMarkers(g, w, at), k);
        }
      }
      hide GarbledCard;
    }
  }
}
