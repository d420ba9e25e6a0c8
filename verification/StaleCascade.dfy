/** A cascading minor collection whose second pass comes to a marker that it cannot take for a header. */
module StaleCascade {
  import opened Bits
  import opened Options
  import opened Bitmaps
  import opened Layouts
  import opened Pages
  import opened Objects
  import opened PageHeaps
  import opened Marking
  import opened Cards
  import opened Rewrite
  import opened Demands
  import opened Copying
  import opened Reclaiming
  import opened EvacMarking
  import opened Graphs
  import opened Passes
  import opened PassGraph
  import opened PassSteps
  import opened PassStates
  import opened Misreads
  import opened Plans
  import opened PassResults
  import opened Foresight
  import opened Cycles
  import opened ChunkedPromotion

  // -- Heaps of strings -----------------------------------------------------

  /** The objects of the heap are headed and without pointers: those of `objs`, each of so many
      cells, on pages of `gen`. */
  ghost predicate Strings(g: Geometry, v: View, objs: map<nat, nat>, gen: Generation) {
    && Shaped(g, v) && gen != Free
    && (forall c: nat | c < |v.starts| :: v.starts[c] == if c in objs then HeaderStart else NoStart)
    && (forall s | s in objs :: s < |v.starts| && GenAt(v, s) == gen && g.layout.decodes(v.cells[s])
          && g.layout.headerLayout(v.cells[s]) == Opaque(objs[s]) && !IsMarker(g, v.cells[s]) && !InHeap(g, v.cells[s]))
  }

  lemma StringAt(g: Geometry, v: View, objs: map<nat, nat>, gen: Generation, x: nat)
    requires Strings(g, v, objs, gen)
    ensures IsObj(v, x) <==> x in objs
    ensures x in objs ==> x < |v.starts| && v.starts[x] == HeaderStart && LayoutAt(g, v, x) == Opaque(objs[x])
                          && SizeOf(g, v, x) == objs[x] && GenAt(v, x) == gen && !InHeap(g, v.cells[x])
    ensures x in AllObjs(v) <==> x in objs
    ensures forall i: nat :: x in objs ==> !IsPtrOff(g, v, x, i)
  {
  }

  /** Every string has a root, and there are no other roots. */
  ghost predicate Rooted(g: Geometry, objs: map<nat, nat>, roots: seq<u64>) {
    && (forall s | s in objs :: HasRoot(g, roots, s))
    && (forall i | 0 <= i < |roots| :: LeadsInto(g, objs, roots[i]))
  }

  ghost predicate HasRoot(g: Geometry, roots: seq<u64>, s: nat) {
    exists i :: 0 <= i < |roots| && RootTo(g, roots[i], s)
  }

  predicate LeadsInto(g: Geometry, objs: map<nat, nat>, w: u64) {
    InHeap(g, w) && CellOf(g, w) in objs && !g.layout.classify(w).PointerCons?
  }

  predicate RootTo(g: Geometry, w: u64, s: nat) {
    InHeap(g, w) && CellOf(g, w) == s && !g.layout.classify(w).PointerCons?
  }

  /** A pass keeps what a root leads to. */
  lemma RootIsKept(g: Geometry, v: View, roots: seq<u64>, i: nat, cards: seq<bool>, scan: Option<seq<PageDesc>>,
                   from: Generation)
    requires Shaped(g, v) && i < |roots| && Follows(g, v, from, roots[i])
    ensures CellOf(g, roots[i]) in ToKeep(g, v, cards, roots, scan, from, {})
  {
    hide CardRoots, WordsAt, CrossPinPtrs, Reachable;
    var seeds := EvacSeeds(g, v, from, roots, CardRoots(g, v, cards, scan, from), {});
    assert roots[i] in WordsOf(roots);
    SeedOf(g, v, from, WordsOf(roots), roots[i]);
    ReachSeed(g, v, from, seeds, CellOf(g, roots[i]));
    assert CellOf(g, roots[i]) in AllObjs(v);
  }

  /** So a pass keeps them all. */
  lemma StringsKept(g: Geometry, v: View, objs: map<nat, nat>, gen: Generation, cards: seq<bool>, roots: seq<u64>,
                    scan: Option<seq<PageDesc>>)
    requires Strings(g, v, objs, gen) && Rooted(g, objs, roots)
    ensures ToKeep(g, v, cards, roots, scan, gen, {}) == objs.Keys
  {
    hide Strings, ToKeep, InHeap;
    StringsShaped(g, v, objs, gen);
    KeptIsObj(g, v, cards, roots, scan, gen, {});
    forall s: nat ensures s in ToKeep(g, v, cards, roots, scan, gen, {}) <==> s in objs.Keys {
      StringAt(g, v, objs, gen, s);
      if s in objs {
        assert HasRoot(g, roots, s);
        var i :| 0 <= i < |roots| && RootTo(g, roots[i], s);
        assert Follows(g, v, gen, roots[i]);
        RootIsKept(g, v, roots, i, cards, scan, gen);
      }
    }
  }

  lemma StringsShaped(g: Geometry, v: View, objs: map<nat, nat>, gen: Generation)
    requires Strings(g, v, objs, gen)
    ensures Shaped(g, v) && gen != Free
  {
  }

  /** Strings point nowhere. */
  lemma StringsStraight(g: Geometry, v: View, objs: map<nat, nat>, gen: Generation, live: set<nat>, chunk: set<nat>,
                        later: set<nat>)
    requires Strings(g, v, objs, gen) && live <= objs.Keys
    ensures NoBack(g, v, live, {}, chunk, later)
  {
    hide Strings;
    forall s: nat, i: nat ensures !BackAt(g, v, live, {}, chunk, later, s, i) { StringAt(g, v, objs, gen, s); }
  }

  lemma StringsPlain(g: Geometry, v: View, objs: map<nat, nat>, gen: Generation)
    requires Strings(g, v, objs, gen)
    ensures Shaped(g, v) && PlainHeaders(g, v)
  {
    hide InHeap;
  }

  // -- The input ------------------------------------------------------------

  /** A reservation above all addresses that a header can spell. */
  function HighGeometry(): Geometry { Geometry(LispLayout(), 0x20_0000_0000, 3) }

  /** A string that fills page 0, two strings on page 1; page 2 is Free. */
  function ThreeStrings(): map<nat, nat> { map[0 := 8192, 8192 := 101, 8293 := 5000] }

  ghost predicate Input(g: Geometry, v: View) {
    && Strings(g, v, ThreeStrings(), G0)
    && v.descs == [PageDesc(G0, Boxed, 8192, 0, 1, false), PageDesc(G0, Boxed, 5101, 0, 1, false), FREE_DESC]
  }

  function InputWord(c: int): u64 {
    if c == 0 then NewHeader(String, 8191) else if c == 8192 then NewHeader(String, 100)
    else if c == 8293 then NewHeader(String, 4999) else 0
  }

  /** A heap like that. */
  function InputView(): View {
    View(seq(3 * PAGE_CELLS, c => InputWord(c)),
         seq(3 * PAGE_CELLS, c => if c == 0 || c == 8192 || c == 8293 then HeaderStart else NoStart),
         [PageDesc(G0, Boxed, 8192, 0, 1, false), PageDesc(G0, Boxed, 5101, 0, 1, false), FREE_DESC])
  }

  /** Its roots, words with the tag of a headed object. */
  const INPUT_ROOTS: seq<u64> := [0x20_0000_0002, 0x20_0001_0002, 0x20_0001_032A]

  lemma StringHeader(length: nat)
    requires length <= MAX_OBJECT_CELLS
    ensures var (g, header) := (HighGeometry(), NewHeader(String, length));
      && GeoOk(g) && g.layout.decodes(header) && g.layout.headerLayout(header) == Opaque(length + 1)
      && !IsMarker(g, header) && !InHeap(g, header)
  {
    LispLawful();
    hide And, Or, LispClassify, LispForward, LispRewrite, Lawful;
    HeaderRoundTrip(String, length, 0);
    HeaderSum(String, length, 0);
    LispArith(NewHeader(String, length), 0);
  }

  lemma InputIs()
    ensures Input(HighGeometry(), InputView())
  {
    hide NewHeader, IsMarker, InHeap, LispHeaderLayout, HeaderType, ThreeStrings, InputWord;
    var g, v := HighGeometry(), InputView();
    forall c: nat ensures c in ThreeStrings() <==> c == 0 || c == 8192 || c == 8293 { ThreeCells(c); }
    forall s | s in ThreeStrings()
      ensures s < |v.cells| && g.layout.decodes(v.cells[s])
      ensures g.layout.headerLayout(v.cells[s]) == Opaque(ThreeStrings()[s])
      ensures !IsMarker(g, v.cells[s]) && !InHeap(g, v.cells[s])
    {
      InputWordIs(s);
    }
  }

  lemma InputWordIs(s: nat)
    requires s in ThreeStrings()
    ensures var (g, w) := (HighGeometry(), InputWord(s));
      && g.layout.decodes(w) && g.layout.headerLayout(w) == Opaque(ThreeStrings()[s]) && !IsMarker(g, w)
            && !InHeap(g, w)
  {
    hide NewHeader, IsMarker, InHeap, LispHeaderLayout, HeaderType, HighGeometry;
    ThreeCells(s);
    StringHeader(ThreeStrings()[s] - 1);
  }

  lemma RootIs(c: nat)
    requires c < 3 * PAGE_CELLS
    ensures RootTo(HighGeometry(), 0x20_0000_0000 + 8 * c + 2, c)
  {
    hide And, Or, LispClassify, LispForward, LispRewrite;
    LispArith(0x20_0000_0000 + 8 * c + 2, 0);
  }

  lemma ThreeCells(s: nat)
    ensures s in ThreeStrings() <==> s == 0 || s == 8192 || s == 8293
  {
  }

  /** The root of each string. */
  function InputRoot(s: nat): nat { if s == 0 then 0 else if s == 8192 then 1 else 2 }

  lemma InputRootTo(s: nat)
    requires s in ThreeStrings()
    ensures RootTo(HighGeometry(), INPUT_ROOTS[InputRoot(s)], s)
  {
    hide RootTo, HighGeometry;
    ThreeCells(s);
    RootIs(s);
    assert INPUT_ROOTS[InputRoot(s)] == 0x20_0000_0000 + 8 * s + 2;
  }

  lemma RootFrom(i: nat)
    requires i < |INPUT_ROOTS|
    ensures LeadsInto(HighGeometry(), ThreeStrings(), INPUT_ROOTS[i])
  {
    hide HighGeometry;
    var s := if i == 0 then 0 else if i == 1 then 8192 else 8293;
    ThreeCells(s);
    InputRootTo(s);
  }

  lemma RootOf(s: nat)
    requires s in ThreeStrings()
    ensures HasRoot(HighGeometry(), INPUT_ROOTS, s)
  {
    hide RootTo, HighGeometry, ThreeStrings;
    InputRootTo(s);
  }

  lemma InputRooted()
    ensures Rooted(HighGeometry(), ThreeStrings(), INPUT_ROOTS)
  {
    hide HasRoot, LeadsInto, HighGeometry, ThreeStrings, INPUT_ROOTS;
    forall s | s in ThreeStrings() ensures HasRoot(HighGeometry(), INPUT_ROOTS, s) { RootOf(s); }
    forall i | 0 <= i < |INPUT_ROOTS| ensures LeadsInto(HighGeometry(), ThreeStrings(), INPUT_ROOTS[i]) { RootFrom(i); }
  }

  /** The heap is good in every respect. */
  lemma InputGood(g: Geometry, v: View, cards: seq<bool>, roots: seq<u64>)
    requires Input(g, v) && Rooted(g, ThreeStrings(), roots) && |cards| == CARDS_PER_PAGE * g.nPages
    ensures GoodHeap(g, v, cards, roots) && PlainHeaders(g, v)
  {
    hide Strings, InHeap, CellOf;
    StringsPlain(g, v, ThreeStrings(), G0);
    InputTiled(g, v);
    forall s: nat | IsObj(v, s)
      ensures s < |v.starts| && s + SizeOf(g, v, s) <= |v.cells| && (forall i: nat :: !IsPtrOff(g, v, s, i))
      ensures s in AllObjs(v)
    {
      StringAt(g, v, ThreeStrings(), G0, s);
    }
    forall i | 0 <= i < |roots| ensures ValidField(g, v, AllObjs(v), roots[i]) {
      StringAt(g, v, ThreeStrings(), G0, CellOf(g, roots[i]));
    }
    hide IsObj, ValidField, GapFree, ObjOk, PlainHeaders;
  }

  lemma InputTiled(g: Geometry, v: View)
    requires Input(g, v)
    ensures HeapOk(g, v) && GapFree(g, v) && NoPinBytes(v)
  {
    hide InHeap;
    forall x: nat | IsObj(v, x) ensures x < |v.starts| && ObjOk(g, v, x) { StringAt(g, v, ThreeStrings(), G0, x); }
    forall p | 0 <= p < |v.descs| ensures Tiled(g, v, p) {
      forall y: nat | y < |v.starts| && y / PAGE_CELLS == p && y % PAGE_CELLS < v.descs[p].wordsUsed
        ensures Covered(g, v, y) {
        OwnerIs(v.starts, if y < 8192 then 0 else if y < 8293 then 8192 else 8293, y);
      }
    }
  }

  // -- Packing pages of strings ---------------------------------------------

  /** A page with two strings, one behind the other from its first cell on. */
  lemma PackTwo(g: Geometry, v: View, objs: map<nat, nat>, gen: Generation, p: nat, n: nat, m: nat, d: Demand)
    requires Strings(g, v, objs, gen) && n >= 1 && m >= 1 && n + m <= PAGE_CELLS
    requires forall c: nat | c / PAGE_CELLS == p :: c in objs <==> c == PAGE_CELLS * p || c == PAGE_CELLS * p + n
    requires PAGE_CELLS * p in objs && objs[PAGE_CELLS * p] == n && objs[PAGE_CELLS * p + n] == m
    ensures PackCells(g, v, objs.Keys, p, PAGE_CELLS * (p + 1), d) ==
            d.More(PAGE_CELLS * p, false, n).More(PAGE_CELLS * p + n, false, m)
  {
    hide Strings, PackCells;
    var x := PAGE_CELLS * p;
    forall c: nat | x <= c < x + PAGE_CELLS ensures c / PAGE_CELLS == p {}
    StringAt(g, v, objs, gen, x);
    StringAt(g, v, objs, gen, x + n);
    StringsShaped(g, v, objs, gen);
    PackNone(g, v, objs.Keys, p, x, x, d);
    assert PackCells(g, v, objs.Keys, p, x, d) == d by { PackFirst(g, v, objs.Keys, p, d); }
    PackObject(g, v, objs.Keys, p, x, n, d);
    PackObject(g, v, objs.Keys, p, x + n, m, d);
    PackNone(g, v, objs.Keys, p, x + n + m, x + PAGE_CELLS, d);
  }

  lemma PackSingle(g: Geometry, v: View, objs: map<nat, nat>, gen: Generation, p: nat, n: nat, d: Demand)
    requires Strings(g, v, objs, gen) && 1 <= n <= PAGE_CELLS
    requires forall c: nat | c / PAGE_CELLS == p :: c in objs <==> c == PAGE_CELLS * p
    requires PAGE_CELLS * p in objs && objs[PAGE_CELLS * p] == n
    ensures PackCells(g, v, objs.Keys, p, PAGE_CELLS * (p + 1), d) == d.More(PAGE_CELLS * p, false, n)
  {
    hide Strings, PackCells;
    StringAt(g, v, objs, gen, PAGE_CELLS * p);
    StringsShaped(g, v, objs, gen);
    PackOne(g, v, objs.Keys, p, PAGE_CELLS * p, d);
  }

  /** One page a chunk, as many released as used: nothing points back, for strings point nowhere. */
  lemma PlanStrings(g: Geometry, v: View, objs: map<nat, nat>, gen: Generation, dest: Generation, pages: seq<nat>,
                    i: nat, d: Demand, p: nat, asked: Demand)
    requires Strings(g, v, objs, gen) && i < |pages| && p == pages[i]
    requires p < |v.descs| && v.descs[p].generation == gen && v.descs[p].kind != Large && !v.descs[p].HasPins()
    requires asked == PackCells(g, v, objs.Keys, p, PAGE_CELLS * (p + 1), d) && asked.Pages() == 1
    ensures PlanFrom(g, v, objs.Keys, {}, gen, dest, pages, i, 1, d) ==
            PlanFrom(g, v, objs.Keys, {}, gen, dest, pages, i + 1, 1, asked.Next([p]))
  {
    hide Strings, PlanFrom, PackCells, NoBack;
    PlanPage(g, v, objs.Keys, gen, dest, pages, i, 1, d, p, asked);
    StringsStraight(g, v, objs, gen, objs.Keys, {p}, Tail(pages, i + 1));
  }

  // -- The first pass -------------------------------------------------------

  /** Where the first pass puts the strings. */
  function FirstPlaces(): map<nat, nat> { map[0 := 16384, 8192 := 0, 8293 := 101] }

  lemma InputDescs(g: Geometry, v: View)
    requires Input(g, v)
    ensures PagesIn(v.descs, G0) == [0, 1] && CountGen(v.descs, Free) == 1 && |v.descs| == 3
    ensures v.descs[0].generation == G0 && v.descs[1].generation == G0 && v.descs[2] == FREE_DESC
    ensures forall p | 0 <= p < 3 :: v.descs[p].kind != Large && !v.descs[p].HasPins()
  {
    hide PagesIn, CountGen, Strings;
    ExampleCounts(v.descs[0], v.descs[1], v.descs[2]);
  }

  /** One chunk a page: the long string gets the Free page; the two others do not fit beside it,
      and get the page it was on. */
  lemma InputPlan(g: Geometry, v: View, regions: seq<AllocRegion>)
    requires Input(g, v) && |regions| == 6 && RegionsOk(v.descs, regions)
    ensures var plan := PlanPass(g, v, regions, [2], ThreeStrings().Keys, {}, G0, G1);
      plan.affords && plan.straight && plan.demand.at == FirstPlaces() && plan.demand.shelf == [1]
  {
    hide Strings, PlanFrom, PagesIn, CountGen, RegionsOk, FirstDemand, PackCells;
    var objs, pages, d := ThreeStrings(), [0, 1], FirstDemand(regions, [2], G0, G1);
    InputDescs(g, v);
    NoOpenPage(v.descs, regions, [2], G0, G1);
    PackSingle(g, v, objs, G0, 0, 8192, d);
    var a1 := d.More(0, false, 8192);
    PlanStrings(g, v, objs, G0, G1, pages, 0, d, 0, a1);
    var d1 := a1.Next([0]);
    PackTwo(g, v, objs, G0, 1, 101, 5000, d1);
    var a2 := d1.More(8192, false, 101).More(8293, false, 5000);
    PlanStrings(g, v, objs, G0, G1, pages, 1, d1, 1, a2);
    PlanEnd(g, v, objs.Keys, {}, G0, G1, pages, 1, a2.Next([1]));
    TwoMoves(d, a1, a2);
  }

  lemma TwoMoves(d: Demand, a1: Demand, a2: Demand)
    requires Fresh(d) && d.boxedFill == PAGE_CELLS && d.shelf == [2] && d.at == map[]
    requires a1 == d.More(0, false, 8192)
    requires a2 == a1.Next([0]).More(8192, false, 101).More(8293, false, 5000)
    ensures a1.Pages() == 1 && a2.Pages() == 1 && a2.at == FirstPlaces() && a2.Next([1]).shelf == [1]
  {
  }

  /** The one Free page is all that the free list has to give. */
  lemma OnlyFree(descs: seq<PageDesc>, list: seq<nat>, p: nat)
    requires FreeListed(descs, list) && CountGen(descs, Free) == 1 && p < |descs| && descs[p].generation == Free
    ensures Shelf(descs, list) == [p]
  {
    hide Shelf, CountGen;
    ShelfCount(descs, list);
    OnShelf(descs, list, p);
  }

  // -- The heap after the first pass ----------------------------------------

  /** Where the strings are by then. */
  function MovedStrings(): map<nat, nat> { map[0 := 101, 101 := 5000, 16384 := 8192] }

  lemma MovedCells(c: nat)
    ensures c in MovedStrings() <==> c == 0 || c == 101 || c == 16384
    ensures c in FirstPlaces().Values <==> c in MovedStrings()
    ensures c in ThreeStrings() <==> c in FirstPlaces()
    ensures c in ThreeStrings() ==>
              FirstPlaces()[c] in MovedStrings() && MovedStrings()[FirstPlaces()[c]] == ThreeStrings()[c]
  {
    var f := FirstPlaces();
    assert f[0] == 16384 && f[8192] == 0 && f[8293] == 101;
    if c in f.Values { var s :| s in f && f[s] == c; }
    if c == 0 { assert f[8192] in f.Values; }
    if c == 101 { assert f[8293] in f.Values; }
    if c == 16384 { assert f[0] in f.Values; }
  }

  lemma MovedStart(g: Geometry, v: View, c: nat)
    requires Input(g, v)
    ensures ImageStart(v, FirstPlaces(), c) == if c in MovedStrings() then HeaderStart else NoStart
  {
    hide Strings, ThreeStrings, FirstPlaces, MovedStrings;
    MovedCells(c);
    forall s | s in FirstPlaces() ensures s < |v.starts| && v.starts[s] == HeaderStart {
      MovedCells(s);
      StringAt(g, v, ThreeStrings(), G0, s);
    }
  }

  lemma MovedCell(g: Geometry, v: View, s: nat)
    requires Input(g, v) && GeoOk(g) && s in ThreeStrings() && s in FirstPlaces()
    ensures s < |v.cells| && ImageCell(g, v, FirstPlaces(), FirstPlaces()[s]) == v.cells[s]
  {
    hide Strings, Led, ImageStart, GeoOk;
    StringsShaped(g, v, ThreeStrings(), G0);
    forall t: nat ensures t in ThreeStrings() ==> SizeOf(g, v, t) == ThreeStrings()[t] && t < |v.starts| {
      StringAt(g, v, ThreeStrings(), G0, t);
    }
    ThreeCells(s);
    var c := FirstPlaces()[s];
    assert LiesAt(g, v, FirstPlaces(), s, 0, c);
    forall t: nat, j: nat | LiesAt(g, v, FirstPlaces(), t, j, c) ensures t == s && j == 0 {
      ThreeCells(t);
    }
    StringAt(g, v, ThreeStrings(), G0, s);
  }

  /** The first pass leaves the same strings, elsewhere. */
  lemma StringsMoved(g: Geometry, v: View, descs: seq<PageDesc>)
    requires Input(g, v) && GeoOk(g) && |descs| == 3 && descs[0].generation == G1 && descs[2].generation == G1
    ensures Strings(g, ImageView(g, v, FirstPlaces(), descs), MovedStrings(), G1)
  {
    hide ImageCell, ImageStart, GeoOk, InHeap, FirstPlaces, ThreeStrings, MovedStrings;
    var w := ImageView(g, v, FirstPlaces(), descs);
    forall c: nat | c < |w.starts| ensures w.starts[c] == if c in MovedStrings() then HeaderStart else NoStart {
      MovedStart(g, v, c);
    }
    forall c: nat | c in MovedStrings()
      ensures c < |w.starts| && GenAt(w, c) == G1 && g.layout.decodes(w.cells[c])
      ensures g.layout.headerLayout(w.cells[c]) == Opaque(MovedStrings()[c]) && !IsMarker(g, w.cells[c])
      ensures !InHeap(g, w.cells[c])
    {
      MovedCells(c);
      var s :| s in FirstPlaces() && FirstPlaces()[s] == c;
      MovedCells(s);
      MovedCell(g, v, s);
    }
  }

  /** The roots follow. */
  lemma RootsLed(g: Geometry, roots: seq<u64>, roots': seq<u64>)
    requires GeoOk(g) && g.nPages == 3 && Rooted(g, ThreeStrings(), roots) && |roots'| == |roots|
    requires forall i | 0 <= i < |roots| :: roots'[i] == Led(g, FirstPlaces(), roots[i])
    ensures Rooted(g, MovedStrings(), roots')
  {
    hide GeoOk, InHeap, ThreeStrings, FirstPlaces, MovedStrings, LeadsInto, RootTo;
    forall i | 0 <= i < |roots'| ensures LeadsInto(g, MovedStrings(), roots'[i]) {
      assert LeadsInto(g, ThreeStrings(), roots[i]);
      RootLed(g, roots[i]);
    }
    forall c | c in MovedStrings() ensures HasRoot(g, roots', c) {
      MovedCells(c);
      var s :| s in FirstPlaces() && FirstPlaces()[s] == c;
      MovedCells(s);
      assert HasRoot(g, roots, s);
      var i :| 0 <= i < |roots| && RootTo(g, roots[i], s);
      assert LeadsInto(g, ThreeStrings(), roots[i]);
      RootLed(g, roots[i]);
      assert RootTo(g, roots'[i], c);
    }
  }

  lemma RootLed(g: Geometry, w: u64)
    requires GeoOk(g) && g.nPages == 3 && LeadsInto(g, ThreeStrings(), w)
    ensures LeadsInto(g, MovedStrings(), Led(g, FirstPlaces(), w))
    ensures forall s: nat ::
              s in FirstPlaces() && RootTo(g, w, s) ==> RootTo(g, Led(g, FirstPlaces(), w), FirstPlaces()[s])
  {
    hide GeoOk, ThreeStrings, FirstPlaces, MovedStrings;
    var s := CellOf(g, w);
    MovedCells(s);
    MovedCells(FirstPlaces()[s]);
    assert FirstPlaces()[s] < 3 * PAGE_CELLS by { MovedBelow(FirstPlaces()[s]); }
    AimLaw(g, w, FirstPlaces()[s]);
  }

  lemma MovedBelow(c: nat)
    requires c in MovedStrings()
    ensures c < 3 * PAGE_CELLS
  {
  }

  // -- The second pass ------------------------------------------------------

  /** The two strings on page 0 go to page 1, the other one to page 0. */
  function SecondPlaces(): map<nat, nat> { map[0 := 8192, 101 := 8293, 16384 := 0] }

  lemma SecondMoves(d: Demand, a1: Demand, a2: Demand)
    requires Fresh(d) && d.boxedFill == PAGE_CELLS && d.shelf == [1] && d.at == map[]
    requires a1 == d.More(0, false, 101).More(101, false, 5000)
    requires a2 == a1.Next([0]).More(16384, false, 8192)
    ensures a1.Pages() == 1 && a2.Pages() == 1 && a2.at == SecondPlaces()
  {
  }

  lemma SecondOpen(descs: seq<PageDesc>, regions: seq<AllocRegion>, shelf: seq<nat>)
    requires |regions| == 6 && RegionsOk(descs, regions)
    requires forall p | 0 <= p < |descs| :: descs[p].generation != Tenured
    ensures var d := FirstDemand(Afresh(Afresh(regions, G0), G1), shelf, G1, Tenured);
      Fresh(d) && d.boxedFill == PAGE_CELLS && d.shelf == shelf && d.at == map[]
  {
    hide RegionsOk;
    NoneOpen(descs, regions, Tenured, Boxed);
  }

  lemma MovedPlan(g: Geometry, w: View, regions: seq<AllocRegion>, d: Demand)
    requires Strings(g, w, MovedStrings(), G1) && PagesIn(w.descs, G1) == [0, 2] && CountGen(w.descs, Free) == 1
    requires forall p | p == 0 || p == 2 ::
               p < |w.descs| && w.descs[p].generation == G1 && w.descs[p].kind != Large && !w.descs[p].HasPins()
    requires Fresh(d) && d.boxedFill == PAGE_CELLS && d.shelf == [1] && d.at == map[]
    ensures PlanFrom(g, w, MovedStrings().Keys, {}, G1, Tenured, [0, 2], 0, 1, d).affords
    ensures PlanFrom(g, w, MovedStrings().Keys, {}, G1, Tenured, [0, 2], 0, 1, d).demand.at == SecondPlaces()
  {
    hide Strings, PlanFrom, PagesIn, CountGen, PackCells;
    var objs, pages := MovedStrings(), [0, 2];
    PackTwo(g, w, objs, G1, 0, 101, 5000, d);
    var a1 := d.More(0, false, 101).More(101, false, 5000);
    PlanStrings(g, w, objs, G1, Tenured, pages, 0, d, 0, a1);
    var d1 := a1.Next([0]);
    PackSingle(g, w, objs, G1, 2, 8192, d1);
    var a2 := d1.More(16384, false, 8192);
    PlanStrings(g, w, objs, G1, Tenured, pages, 1, d1, 2, a2);
    PlanEnd(g, w, objs.Keys, {}, G1, Tenured, pages, 1, a2.Next([2]));
    SecondMoves(d, a1, a2);
  }

  /** What covers the first cell of a card is what the scan comes to first. */
  lemma FirstStops(g: Geometry, v: View, k: nat, s: nat)
    requires Shaped(g, v) && k < CARDS_PER_PAGE * g.nPages && GenAt(v, CARD_CELLS * k) != Free
    requires Owner(v.starts, CARD_CELLS * k) == Some(s) && v.starts[s] == HeaderStart
    requires IsMarker(g, v.cells[s]) && !Readable(g, v, s)
    ensures !CardLegible(g, v, k)
  {
    hide Readable, IsMarker, SizeOf;
  }

  /** The second string on page 0, forwarded. */
  lemma StringMarked(g: Geometry, w: View)
    requires GeoOk(g) && Strings(g, w, MovedStrings(), G1) && g.nPages == 3
    ensures var m := WithMarkers(g, w, SecondPlaces());
      && Shaped(g, m) && PlainHeaders(g, m) && GenAt(m, 128) == G1 && IsObj(m, 101)
      && m.starts[101] == HeaderStart && m.cells[101] == Marker(g, 8293) && Owner(m.starts, 128) == Some(101)
  {
    hide InHeap, Marker, IsMarker, GeoOk, PlainHeaders;
    var m := WithMarkers(g, w, SecondPlaces());
    StringsPlain(g, w, MovedStrings(), G1);
    PlainWithMarkers(g, w, SecondPlaces());
    StringAt(g, w, MovedStrings(), G1, 101);
    OwnerIs(m.starts, 101, 128);
  }

  /** Its new address is no multiple of 32, so its marker decodes as no header. */
  lemma NoHeader(g: Geometry)
    requires GeoOk(g) && g.layout == LispLayout() && g.base % 32 == 0 && g.nPages == 3
    ensures !g.layout.decodes(Marker(g, 8293))
  {
    hide Lawful, LispForward, LispHeaderLayout, HeaderType, LispClassify, LispRewrite;
    MarkerAsHeader(AddrOf(g, 8293));
  }

  /** So a scan that comes to it stops. */
  lemma MarkerStops(g: Geometry, w: View)
    requires GeoOk(g) && Strings(g, w, MovedStrings(), G1) && g.layout == LispLayout() && g.base % 32 == 0
    requires g.nPages == 3
    ensures !CardLegible(g, WithMarkers(g, w, SecondPlaces()), 2)
  {
    hide Strings, Marker, IsMarker, GeoOk, PlainHeaders, CardLegible, WithMarkers, LispLayout, PtrCells, Harmless;
    StringMarked(g, w);
    MarkerLaw(g, 8293);
    NoHeader(g);
    FirstStops(g, WithMarkers(g, w, SecondPlaces()), 2, 101);
  }

  lemma WhitherStrings(g: Geometry, v: View)
    requires Input(g, v)
    ensures Whither(v, ThreeStrings().Keys, G0, FirstPlaces()) == FirstPlaces()
  {
    hide Strings, ThreeStrings, FirstPlaces;
    forall s: nat ensures s in ThreeStrings() <==> s in FirstPlaces() { MovedCells(s); }
    forall s | s in FirstPlaces() ensures s / PAGE_CELLS < |v.descs| && GenAt(v, s) == G0 {
      ThreeCells(s);
    }
  }

  lemma AfterInput(g: Geometry, v: View)
    requires Input(g, v)
    ensures var d := AfterDescs(v.descs, [1]);
      && |d| == 3 && d[0].generation == G1 && d[1] == FREE_DESC && d[2].generation == G1
      && (forall p | p == 0 || p == 2 :: d[p].kind != Large && !d[p].HasPins())
      && PagesIn(d, G1) == [0, 2] && CountGen(d, Free) == 1
  {
    hide Strings, PagesIn, CountGen;
    var d := AfterDescs(v.descs, [1]);
    assert d[0].generation == G1 && d[1] == FREE_DESC && d[2].generation == G1;
    MiddleCounts(d[0], d[1], d[2]);
    assert d == [d[0], d[1], d[2]];
  }

  lemma MiddleCounts(a: PageDesc, b: PageDesc, c: PageDesc)
    requires a.generation == c.generation == G1 && b.generation == Free
    ensures PagesIn([a, b, c], G1) == [0, 2] && CountGen([a, b, c], Free) == 1
  {
    hide PagesIn, CountGen;
    PagesNone(G1);
    PagesNone(Free);
    PagesOneMore([], a, G1);
    PagesOneMore([], a, Free);
    assert [] + [a] == [a];
    PagesOneMore([a], b, G1);
    PagesOneMore([a], b, Free);
    assert [a] + [b] == [a, b];
    PagesOneMore([a, b], c, G1);
    PagesOneMore([a, b], c, Free);
    assert [a, b] + [c] == [a, b, c];
  }

  /** The copy of the second string on page 0 has dirtied the card. */
  lemma CopyDirties(g: Geometry, v: View)
    requires Input(g, v)
    ensures CardOwed(g, v, FirstPlaces(), G0, {}, 2)
  {
    hide Strings;
    StringsShaped(g, v, ThreeStrings(), G0);
    StringAt(g, v, ThreeStrings(), G0, 8293);
    assert 8293 in FirstPlaces() && CoversCard(FirstPlaces()[8293], SizeOf(g, v, 8293), 2);
  }

  /** What the first pass leaves: the same strings on pages 0 and 2, all with a root, and the card
      of the second string dirty. */
  lemma InputForeseen(g: Geometry, v: View, regions: seq<AllocRegion>, cards: seq<bool>, roots: seq<u64>, first: Plan)
    requires Input(g, v) && GeoOk(g) && Rooted(g, ThreeStrings(), roots) && |cards| == CARDS_PER_PAGE * g.nPages
    requires |regions| == 6 && first.demand.at == FirstPlaces() && first.demand.shelf == [1] && Shaped(g, v)
    ensures var half := Foreseen(g, v, regions, cards, roots, ThreeStrings().Keys, first);
      && Strings(g, half.view, MovedStrings(), G1) && Rooted(g, MovedStrings(), half.roots)
      && half.view.descs == AfterDescs(v.descs, [1]) && |half.cards| == |cards| && half.cards[2]
      && half.shelf == [1] && half.regions == Afresh(Afresh(regions, G0), G1)
  {
    hide Strings, GeoOk, ThreeStrings, FirstPlaces, MovedStrings, ImageView, Led, CardOwed, AfterDescs, Rooted, Afresh;
    WhitherStrings(g, v);
    AfterInput(g, v);
    StringsMoved(g, v, AfterDescs(v.descs, [1]));
    CopyDirties(g, v);
    RootsLed(g, roots, Foreseen(g, v, regions, cards, roots, ThreeStrings().Keys, first).roots);
  }

  /** So the second pass has pages enough, and its card scan is led to the marker. */
  lemma InputGarbled(g: Geometry, v: View, regions: seq<AllocRegion>, cards: seq<bool>, roots: seq<u64>, first: Plan)
    requires Input(g, v) && GeoOk(g) && Rooted(g, ThreeStrings(), roots) && |cards| == CARDS_PER_PAGE * g.nPages
    requires |regions| == 6 && RegionsOk(v.descs, regions) && Shaped(g, v)
    requires first.demand.at == FirstPlaces() && first.demand.shelf == [1]
    requires g.layout == LispLayout() && g.base % 32 == 0
    ensures var half := Foreseen(g, v, regions, cards, roots, ThreeStrings().Keys, first);
      SecondPlan(g, half, v.descs, {}).affords && SecondGarbled(g, half, v.descs, {})
  {
    hide Strings, GeoOk, ThreeStrings, FirstPlaces, MovedStrings, Foreseen, AfterDescs, Rooted, Afresh, ToKeep,
      PlanFrom, FirstDemand, PagesIn, CountGen, CardLegible, WithMarkers, SecondPlaces, RegionsOk, LispLayout;
    var half := Foreseen(g, v, regions, cards, roots, ThreeStrings().Keys, first);
    InputForeseen(g, v, regions, cards, roots, first);
    AfterInput(g, v);
    StringsKept(g, half.view, MovedStrings(), G1, half.cards, half.roots, Some(v.descs));
    SecondOpen(v.descs, regions, [1]);
    MovedPlan(g, half.view, half.regions, FirstDemand(half.regions, [1], G1, Tenured));
    MarkerStops(g, half.view);
    assert 0 in Members([0, 2]);
    assert GarbledCard(g, half.view, half.cards, v.descs, G1, SecondPlaces(), Members([0, 2]), 2);
  }

  /** The fifteenth minor on such a heap comes in its second pass to the marker, which is no header. */
  method StaleMinor(h: PageHeap, roots: array<u64>) returns (outcome: Outcome)
    requires CycleReady(h) && RootsApart(h, roots) && Input(h.Geo(), h.V())
    requires h.layout == LispLayout() && h.base % 32 == 0 && Rooted(h.Geo(), ThreeStrings(), roots[..])
    requires h.minorsSinceG0Promote == 2 && h.g0PromotesSinceG1Promote == 4
    requires h.pinnedCells == {} && h.explicitPins.Keys == {} && !h.poisoned
    modifies h`descs, h`regions, h`bytesAlloc, h`committed, h`freeList, h`highWater, h`pinnedCells, h`liveCounts,
      h`liveTarget, h`minorsSinceG0Promote, h`g0PromotesSinceG1Promote, h.cells, h.startTable.bits, h.markTable.bits,
      h.cards, roots
    ensures outcome.Misread?
  {
    hide Starts, GeoOk, MemoryOk, PagesOk, RegionsOk, HeapOk, WellPaired, NoLarge, PinsOk, GoodHeap, CycleReady,
      ToKeep, PlanPass, OneRest, Ample, Collected, HalfwayOk, ScanVerdict, Strings, Rooted, ThreeStrings, FirstPlaces,
      PlainHeaders, CountGen, Foreseen, SecondGarbled, SecondPlan, Shelf, CardsClean, LispLayout;
    ghost var g, v, cards, roots0, regions := h.Geo(), h.V(), h.cards[..], roots[..], h.regions;
    ghost var list := h.freeList;
    ReadyPages(h);
    ReadyTables(h);
    InputGood(g, v, cards, roots0);
    StringsKept(g, v, ThreeStrings(), G0, cards, roots0, Some(v.descs));
    InputDescs(g, v);
    OnlyFree(v.descs, list, 2);
    InputPlan(g, v, regions);
    ghost var plan, phi, good, first, second, mid;
    assert h.pinnedCells + h.explicitPins.Keys == {};
    outcome, plan, phi, good, first, second, mid := CollectMinor(h, roots);
    assert plan.promoteG0 && plan.promoteG1;
    InputGarbled(g, v, regions, cards, roots0, first);
  }

  lemma ReadyTables(h: PageHeap)
    requires CycleReady(h)
    ensures h.Valid() && RegionsOk(h.descs, h.regions) && FreeListed(h.descs, h.freeList) && GeoOk(h.Geo())
    ensures Shaped(h.Geo(), h.V()) && h.cards.Length == CARDS_PER_PAGE * h.nPages && |h.regions| == 6
  {
    hide Starts, GeoOk, MemoryOk, HeapOk, RegionsOk, NoLarge, PinsOk, CardsClean, WellPaired;
  }
}
