/** How many fresh pages copying a chunk asks for: next fit, computed and bounded. */
module Demands {
  import opened Options
  import opened Bitmaps
  import opened Pages
  import opened Objects
  import opened PageHeaps
  import opened Alloc

  /** Next fit at work: fresh pages opened for conses and for headed objects and the cells
      copied of each; how far the open page of either kind is filled (to the brim if none is
      open) and which page that is; the Free pages in the order in which they will be handed out,
      the next one last; the regions of the other generations; and where objects have been put. */
  datatype Demand = Demand(consPages: nat, boxedPages: nat, consCells: nat, boxedCells: nat, consFill: nat,
                           boxedFill: nat, consPage: nat, boxedPage: nat, shelf: seq<nat>,
                           others: seq<AllocRegion>, at: map<nat, nat>)
  {
    function Pages(): nat { consPages + boxedPages }

    function Cells(): nat { consCells + boxedCells }

    /** The object does not fit the open page of its kind. */
    predicate Overflows(isCons: bool, n: nat) { (if isCons then consFill else boxedFill) + n > PAGE_CELLS }

    /** The page the next object goes to; any if there is none left. */
    function PageFor(isCons: bool, n: nat): nat {
      if !Overflows(isCons, n) then if isCons then consPage else boxedPage
      else if shelf == [] then 0 else shelf[|shelf| - 1]
    }

    /** The cell it goes to. */
    function CellFor(isCons: bool, n: nat): nat {
      PAGE_CELLS * PageFor(isCons, n) + if Overflows(isCons, n) then 0 else if isCons then consFill else boxedFill
    }

    /** One object more: that at `x`, of `n` cells. */
    function More(x: nat, isCons: bool, n: nat): Demand {
      var newPage := Overflows(isCons, n);
      var more := if newPage then 1 else 0;
      var left := if newPage && shelf != [] then shelf[..|shelf| - 1] else shelf;
      var put := at[x := CellFor(isCons, n)];
      if isCons then
        this.(consPages := consPages + more, consCells := consCells + n,
              consFill := if newPage then n else consFill + n,
              consPage := PageFor(isCons, n), shelf := left, at := put)
      else
        this.(boxedPages := boxedPages + more, boxedCells := boxedCells + n,
              boxedFill := if newPage then n else boxedFill + n,
              boxedPage := PageFor(isCons, n), shelf := left, at := put)
    }

    /** At the start of the next chunk, the pages of `freed` having been released meanwhile. */
    function Next(freed: seq<nat>): Demand {
      this.(consPages := 0, boxedPages := 0, consCells := 0, boxedCells := 0, shelf := shelf + freed)
    }
  }

  /** Nothing asked for yet. */
  predicate Fresh(d: Demand) { d.Pages() == 0 && d.Cells() == 0 }

  /** Every fresh page of conses but the last is full: a cons takes two cells of an even
      page. `fill` is how far the last one is filled. */
  predicate ConsesFit(pages: nat, cells: nat, fill: nat) {
    pages >= 1 ==> fill % 2 == 0 && fill >= 1 && PAGE_CELLS * (pages - 1) + fill <= cells
  }

  /** Two fresh pages in a row hold more than one page of headed objects: the first
      object of the second did not fit the first. */
  predicate BoxedFit(pages: nat, cells: nat, fill: nat) {
    pages >= 1 ==> fill >= 1 && (PAGE_CELLS + 1) * (pages / 2) + (if pages % 2 == 1 then fill else 0) <= cells
  }

  predicate Fits(d: Demand) {
    ConsesFit(d.consPages, d.consCells, d.consFill) && BoxedFit(d.boxedPages, d.boxedCells, d.boxedFill)
  }

  /** Copying at most `c` pages' worth of cells opens at most `2c` fresh pages, and at most
      `c` if it copies conses only. */
  lemma FitsBound(d: Demand, c: nat)
    requires Fits(d) && d.Cells() <= PAGE_CELLS * c
    ensures d.Pages() <= 2 * c
    ensures d.boxedCells == 0 ==> d.Pages() <= c
  {
    var x, y := if d.consPages >= 1 then d.consPages - 1 else 0, d.boxedPages / 2;
    if c <= x + y {
      assert PAGE_CELLS * c <= PAGE_CELLS * x + PAGE_CELLS * y;
    }
  }

  lemma FreshFits(d: Demand)
    requires Fresh(d)
    ensures Fits(d)
  {
  }

  /** The fill levels after one object more. */
  lemma FitMore(pages: nat, cells: nat, fill: nat, n: nat)
    requires n >= 1
    ensures ConsesFit(pages, cells, fill) && n == 2 ==> ConsesFit(pages, cells + n, fill + n)
    ensures BoxedFit(pages, cells, fill) ==> BoxedFit(pages, cells + n, fill + n)
    ensures ConsesFit(pages, cells, fill) && n == 2 && fill + n > PAGE_CELLS ==> ConsesFit(pages + 1, cells + n, n)
    ensures BoxedFit(pages, cells, fill) && fill + n > PAGE_CELLS ==> BoxedFit(pages + 1, cells + n, n)
  {
    if BoxedFit(pages, cells, fill) && pages >= 1 {
      if pages % 2 == 1 {
        assert (pages + 1) / 2 == pages / 2 + 1;
      } else {
        assert (pages + 1) / 2 == pages / 2;
      }
    }
  }

  /** Next fit keeps to its bound, object by object. */
  lemma FitsMore(d: Demand, x: nat, isCons: bool, n: nat)
    requires Fits(d) && n >= 1 && (isCons ==> n == 2)
    ensures Fits(d.More(x, isCons, n))
  {
    hide ConsesFit, BoxedFit;
    FitMore(if isCons then d.consPages else d.boxedPages, if isCons then d.consCells else d.boxedCells,
            if isCons then d.consFill else d.boxedFill, n);
  }

  // -- Packing the objects of a page, of a chunk ----------------------------

  /** The demand after packing those objects of `move` on page `p` that start below cell `x`, in order. */
  function PackCells(g: Geometry, v: View, move: set<nat>, p: nat, x: nat, d: Demand): Demand
    decreases x
  {
    if x <= PAGE_CELLS * p then d else
      var before := PackCells(g, v, move, p, x - 1, d);
      if x - 1 in move && x - 1 < |v.starts| && x - 1 < |v.cells| then
        before.More(x - 1, v.starts[x - 1] == ConsStart, SizeOf(g, v, x - 1))
      else before
  }

  /** The demand after packing the first `i` pages of a chunk of `from`. */
  function PackChunk(g: Geometry, v: View, move: set<nat>, from: Generation, chunk: seq<nat>, i: nat, d: Demand): Demand
    requires i <= |chunk|
    decreases i
  {
    if i == 0 then d else
      var before := PackChunk(g, v, move, from, chunk, i - 1, d);
      var p := chunk[i - 1];
      if p < |v.descs| && v.descs[p].generation == from && v.descs[p].kind != Large
      then PackCells(g, v, move, p, PAGE_CELLS * (p + 1), before) else before
  }

  lemma {:induction false} PackNone(g: Geometry, v: View, move: set<nat>, p: nat, x: nat, y: nat, d: Demand)
    requires PAGE_CELLS * p <= x <= y && forall c | x <= c < y :: c !in move
    ensures PackCells(g, v, move, p, y, d) == PackCells(g, v, move, p, x, d)
    decreases y
  {
    if x < y { PackNone(g, v, move, p, x, y - 1, d); }
  }

  lemma {:induction false} PackGrows(g: Geometry, v: View, move: set<nat>, p: nat, x: nat, y: nat, d: Demand)
    requires PAGE_CELLS * p <= x <= y
    ensures PackCells(g, v, move, p, x, d).Pages() <= PackCells(g, v, move, p, y, d).Pages()
    decreases y
  {
    if x < y { PackGrows(g, v, move, p, x, y - 1, d); }
  }

  lemma {:induction false} ChunkGrows(g: Geometry, v: View, move: set<nat>, from: Generation, chunk: seq<nat>, i: nat,
                                      j: nat, d: Demand)
    requires i <= j <= |chunk|
    ensures PackChunk(g, v, move, from, chunk, i, d).Pages() <= PackChunk(g, v, move, from, chunk, j, d).Pages()
    decreases j
  {
    if i < j {
      ChunkGrows(g, v, move, from, chunk, i, j - 1, d);
      var p := chunk[j - 1];
      PackGrows(g, v, move, p, PAGE_CELLS * p, PAGE_CELLS * (p + 1), PackChunk(g, v, move, from, chunk, j - 1, d));
    }
  }

  /** An object of `move` at `x`, and the cells up to its end. */
  lemma PackObject(g: Geometry, v: View, move: set<nat>, p: nat, x: nat, n: nat, d: Demand)
    requires PAGE_CELLS * p <= x < |v.starts| && x < |v.cells| && n >= 1
    requires x in move && n == SizeOf(g, v, x) && forall c | x < c < x + n :: c !in move
    ensures PackCells(g, v, move, p, x + n, d) == PackCells(g, v, move, p, x, d).More(x, v.starts[x] == ConsStart, n)
  {
    PackNone(g, v, move, p, x + 1, x + n, d);
  }

  /** A page with one object to move, at `x`. */
  lemma PackOne(g: Geometry, v: View, move: set<nat>, p: nat, x: nat, d: Demand)
    requires x < |v.starts| && x < |v.cells| && x / PAGE_CELLS == p && x in move
    requires (forall c | c in move && c / PAGE_CELLS == p :: c == x)
    requires SizeOf(g, v, x) >= 1 && x + SizeOf(g, v, x) <= PAGE_CELLS * (p + 1)
    ensures PackCells(g, v, move, p, PAGE_CELLS * (p + 1), d) == d.More(x, v.starts[x] == ConsStart, SizeOf(g, v, x))
  {
    var n := SizeOf(g, v, x);
    assert forall c | PAGE_CELLS * p <= c < PAGE_CELLS * (p + 1) :: c / PAGE_CELLS == p;
    PackNone(g, v, move, p, PAGE_CELLS * p, x, d);
    PackObject(g, v, move, p, x, n, d);
    PackNone(g, v, move, p, x + n, PAGE_CELLS * (p + 1), d);
  }

  lemma PackOnePage(g: Geometry, v: View, move: set<nat>, from: Generation, p: nat, d: Demand)
    requires p < |v.descs| && v.descs[p].generation == from && v.descs[p].kind != Large
    ensures PackChunk(g, v, move, from, [p], 1, d) == PackCells(g, v, move, p, PAGE_CELLS * (p + 1), d)
  {
    assert PackChunk(g, v, move, from, [p], 0, d) == d;
  }

  /** Packing a page puts its objects somewhere, and leaves those of other pages where they are. */
  lemma {:induction false} PackPuts(g: Geometry, v: View, move: set<nat>, p: nat, x: nat, d: Demand, c: nat)
    ensures c in PackCells(g, v, move, p, x, d).at <==>
              c in d.at || (PAGE_CELLS * p <= c < x && c in move && c < |v.starts| && c < |v.cells|)
    ensures c in d.at && !(PAGE_CELLS * p <= c < x) ==> PackCells(g, v, move, p, x, d).at[c] == d.at[c]
    decreases x
  {
    if x > PAGE_CELLS * p { PackPuts(g, v, move, p, x - 1, d, c); }
  }

  lemma {:induction false} ChunkPuts(g: Geometry, v: View, move: set<nat>, from: Generation, chunk: seq<nat>, i: nat,
                                     d: Demand, c: nat)
    requires i <= |chunk|
    ensures c in PackChunk(g, v, move, from, chunk, i, d).at ==> c in d.at || c in move
    ensures c / PAGE_CELLS !in chunk[..i] ==>
              && (c in PackChunk(g, v, move, from, chunk, i, d).at <==> c in d.at)
              && (c in d.at ==> PackChunk(g, v, move, from, chunk, i, d).at[c] == d.at[c])
    decreases i
  {
    hide PackCells;
    if i > 0 {
      ChunkPuts(g, v, move, from, chunk, i - 1, d, c);
      var p := chunk[i - 1];
      assert chunk[..i] == chunk[..i - 1] + [p];
      PackPuts(g, v, move, p, PAGE_CELLS * (p + 1), PackChunk(g, v, move, from, chunk, i - 1, d), c);
      if c / PAGE_CELLS != p { assert !(PAGE_CELLS * p <= c < PAGE_CELLS * (p + 1)); }
    }
  }

  /** Two heaps whose moving objects on the page agree pack it alike. */
  ghost predicate SamePacking(g: Geometry, v: View, w: View, move: set<nat>, move': set<nat>, p: nat) {
    forall c: nat | c / PAGE_CELLS == p :: (
      && (c in move <==> c in move')
      && (c in move ==> c < |v.starts| && c < |v.cells| && c < |w.starts| && c < |w.cells|
                        && v.starts[c] == w.starts[c] && SizeOf(g, v, c) == SizeOf(g, w, c)))
  }

  lemma {:induction false} PackSame(g: Geometry, v: View, w: View, move: set<nat>, move': set<nat>, p: nat, x: nat,
                                    d: Demand)
    requires SamePacking(g, v, w, move, move', p) && x <= PAGE_CELLS * (p + 1)
    ensures PackCells(g, v, move, p, x, d) == PackCells(g, w, move', p, x, d)
    decreases x
  {
    if x > PAGE_CELLS * p {
      PackSame(g, v, w, move, move', p, x - 1, d);
      assert (x - 1) / PAGE_CELLS == p;
    }
  }

  /** Two descriptors of one generation, of Large pages both or neither. */
  predicate SameUse(a: PageDesc, b: PageDesc) { a.generation == b.generation && (a.kind == Large <==> b.kind == Large) }

  lemma {:induction false} ChunkSame(g: Geometry, v: View, w: View, move: set<nat>, move': set<nat>, from: Generation,
                                     chunk: seq<nat>, i: nat, d: Demand)
    requires i <= |chunk| && |v.descs| == |w.descs|
    requires forall j | 0 <= j < |chunk| :: chunk[j] < |v.descs| && SameUse(v.descs[chunk[j]], w.descs[chunk[j]])
                                            && SamePacking(g, v, w, move, move', chunk[j])
    ensures PackChunk(g, v, move, from, chunk, i, d) == PackChunk(g, w, move', from, chunk, i, d)
    decreases i
  {
    hide SamePacking;
    if i > 0 {
      ChunkSame(g, v, w, move, move', from, chunk, i - 1, d);
      assert SamePacking(g, v, w, move, move', chunk[i - 1]);
      PackSame(g, v, w, move, move', chunk[i - 1], PAGE_CELLS * (chunk[i - 1] + 1), PackChunk(g, v, move, from, chunk,
        i - 1, d));
    }
  }

  // -- The packing and the heap ---------------------------------------------

  /** What a region holds after an object of `n` cells went to cell `c` through it. */
  ghost predicate RegionStep(v: View, r0: seq<AllocRegion>, free0: seq<nat>, mid: View, r1: seq<AllocRegion>,
                             free1: seq<nat>, dest: Generation, isCons: bool, c: nat, n: nat)
  {
    var kind := if isCons then Cons else Boxed;
    && HasRegion(dest, kind) && |r0| == 6
    && r1 == r0[RegionIndex(dest, kind) := AllocRegion(Some(c / PAGE_CELLS), c % PAGE_CELLS + n)]
    && (mid == v ==> r0[RegionIndex(dest, kind)] == AllocRegion(Some(c / PAGE_CELLS), c % PAGE_CELLS)
                     && c % PAGE_CELLS + n <= PAGE_CELLS && free1 == free0)
    && (mid != v ==>
          c % PAGE_CELLS == 0 && NoRoom(r0, dest, isCons, n) && Popped(v.descs, free0, free1, c / PAGE_CELLS))
  }

  /** How far the open page of the region is filled; to the brim if there is none. */
  function FillOf(regions: seq<AllocRegion>, dest: Generation, isCons: bool): nat
    requires HasRegion(dest, Cons) && |regions| == 6
  {
    var r := regions[RegionIndex(dest, if isCons then Cons else Boxed)];
    if r.currentPage.None? then PAGE_CELLS else r.offset
  }

  /** The region has no page, or its page no room for `n` cells. */
  predicate NoRoom(regions: seq<AllocRegion>, dest: Generation, isCons: bool, n: nat) {
    && HasRegion(dest, Cons) && |regions| == 6
    && FillOf(regions, dest, isCons) + n > PAGE_CELLS
  }

  /** The page the region has open, if any. */
  function OpenPage(regions: seq<AllocRegion>, dest: Generation, isCons: bool): nat
    requires HasRegion(dest, Cons) && |regions| == 6
  {
    var r := regions[RegionIndex(dest, if isCons then Cons else Boxed)];
    if r.currentPage.None? then 0 else r.currentPage.value
  }

  /** The regions but for those of `gen`, which start afresh. */
  function Afresh(regions: seq<AllocRegion>, gen: Generation): (r: seq<AllocRegion>)
    requires |regions| == 6
    ensures |r| == 6
  {
    if gen == Free then regions
    else regions[RegionIndex(gen, Cons) := EMPTY_REGION][RegionIndex(gen, Boxed) := EMPTY_REGION]
  }

  // -- The free list --------------------------------------------------------

  /** The Free pages in the order in which the list will give them out, the next one last: its
      entries count from the end, each page where it comes first, and only if it is still Free. */
  function Shelf(descs: seq<PageDesc>, list: seq<nat>): seq<nat> {
    if list == [] then [] else Picked(descs, list[0], list[1..]) + Shelf(descs, list[1..])
  }

  /** Page `p` if it is Free and does not come again in `later`. */
  function Picked(descs: seq<PageDesc>, p: nat, later: seq<nat>): seq<nat> {
    if p < |descs| && descs[p].generation == Free && p !in later then [p] else []
  }

  lemma {:induction false} OnShelf(descs: seq<PageDesc>, list: seq<nat>, p: nat)
    ensures p in Shelf(descs, list) <==> p in list && p < |descs| && descs[p].generation == Free
  {
    if list != [] {
      OnShelf(descs, list[1..], p);
      assert list == [list[0]] + list[1..];
    }
  }

  lemma {:induction false} ShelfSame(a: seq<PageDesc>, b: seq<PageDesc>, list: seq<nat>)
    requires |a| == |b| && forall p | 0 <= p < |a| :: a[p].generation == Free <==> b[p].generation == Free
    ensures Shelf(a, list) == Shelf(b, list)
  {
    if list != [] { ShelfSame(a, b, list[1..]); }
  }

  lemma {:induction false} ShelfNone(descs: seq<PageDesc>, list: seq<nat>)
    requires forall i | 0 <= i < |list| :: list[i] < |descs| && descs[list[i]].generation != Free
    ensures Shelf(descs, list) == []
  {
    if list != [] { ShelfNone(descs, list[1..]); }
  }

  /** The page popped is the next one of the shelf, and those before it stay. */
  lemma {:induction false} ShelfPopped(descs: seq<PageDesc>, before: seq<nat>, after: seq<nat>, p: nat, d: PageDesc)
    requires Popped(descs, before, after, p) && p < |descs| && descs[p].generation == Free && d.generation != Free
    ensures Shelf(descs, before) == Shelf(descs[p := d], after) + [p]
    decreases |after|
  {
    hide Picked, Shelf;
    if after == [] {
      assert before == [p] + before[1..];
      ShelfFirst(descs, p, before[1..]);
      ShelfNone(descs, before[1..]);
      assert Shelf(descs[p := d], []) == [] by { ShelfNone(descs[p := d], []); }
      assert Picked(descs, p, before[1..]) == [p] by { NotAgain(descs, p, before[1..]); }
    } else {
      var q := before[0];
      assert after == [q] + after[1..] && before == [q] + before[1..];
      assert after[1..] == before[1..][..|after| - 1];
      ShelfPopped(descs, before[1..], after[1..], p, d);
      ShelfFirst(descs, q, before[1..]);
      ShelfFirst(descs[p := d], q, after[1..]);
      PickedPopped(descs, before[1..], after[1..], p, d, q);
    }
  }

  lemma NotAgain(descs: seq<PageDesc>, p: nat, later: seq<nat>)
    requires p < |descs| && descs[p].generation == Free
    requires forall j | 0 <= j < |later| :: later[j] < |descs| && descs[later[j]].generation != Free
    ensures Picked(descs, p, later) == [p]
  {
  }

  lemma PickedPopped(descs: seq<PageDesc>, before: seq<nat>, after: seq<nat>, p: nat, d: PageDesc, q: nat)
    requires Popped(descs, before, after, p) && p < |descs| && descs[p].generation == Free && d.generation != Free
    ensures Picked(descs[p := d], q, after) == Picked(descs, q, before)
  {
    assert before[|after|] == p && forall x | x in after :: x in before;
    if q < |descs| && descs[q].generation == Free && q != p && q in before {
      var j :| 0 <= j < |before| && before[j] == q;
      assert after[j] == q;
    }
  }

  predicate Distinct(s: seq<nat>) { forall i, j | 0 <= i < j < |s| :: s[i] != s[j] }

  /** Released pages come to lie on top. */
  lemma {:induction false} ShelfReleased(a: seq<PageDesc>, b: seq<PageDesc>, list: seq<nat>, freed: seq<nat>)
    requires |a| == |b| && Distinct(freed)
    requires forall p | p in freed :: p < |a| && a[p].generation != Free && b[p].generation == Free
    requires forall p | 0 <= p < |a| && p !in freed :: a[p].generation == Free <==> b[p].generation == Free
    ensures Shelf(b, list + freed) == Shelf(a, list) + freed
  {
    if list == [] {
      assert list + freed == freed;
      AllOnShelf(b, freed);
    } else {
      hide Picked, Shelf;
      var q := list[0];
      ShelfReleased(a, b, list[1..], freed);
      assert list == [q] + list[1..] && list + freed == [q] + (list[1..] + freed);
      ShelfFirst(a, q, list[1..]);
      ShelfFirst(b, q, list[1..] + freed);
      assert Picked(b, q, list[1..] + freed) == Picked(a, q, list[1..]) by { PickedSame(a, b, q, list[1..], freed); }
      assert Shelf(a, list) + freed == Picked(a, q, list[1..]) + (Shelf(a, list[1..]) + freed);
    }
  }

  lemma ShelfFirst(descs: seq<PageDesc>, p: nat, later: seq<nat>)
    ensures Shelf(descs, [p] + later) == Picked(descs, p, later) + Shelf(descs, later)
  {
    assert ([p] + later)[1..] == later;
  }

  lemma PickedSame(a: seq<PageDesc>, b: seq<PageDesc>, p: nat, later: seq<nat>, freed: seq<nat>)
    requires |a| == |b| && forall q | q in freed :: q < |a| && a[q].generation != Free && b[q].generation == Free
    requires forall q | 0 <= q < |a| && q !in freed :: a[q].generation == Free <==> b[q].generation == Free
    ensures Picked(b, p, later + freed) == Picked(a, p, later)
  {
  }

  lemma {:induction false} AllOnShelf(descs: seq<PageDesc>, list: seq<nat>)
    requires Distinct(list) && forall p | p in list :: p < |descs| && descs[p].generation == Free
    ensures Shelf(descs, list) == list
  {
    if list != [] {
      forall p | p in list[1..] ensures p in list {}
      AllOnShelf(descs, list[1..]);
      assert list == [list[0]] + list[1..] && list[0] in list;
      assert list[0] !in list[1..];
    }
  }

  /** No page is on the shelf twice. */
  lemma {:induction false} ShelfOnce(descs: seq<PageDesc>, list: seq<nat>)
    ensures Distinct(Shelf(descs, list))
  {
    if list != [] {
      ShelfOnce(descs, list[1..]);
      OnShelf(descs, list[1..], list[0]);
      PutFirst(Picked(descs, list[0], list[1..]), list[0], Shelf(descs, list[1..]));
    }
  }

  lemma PutFirst(first: seq<nat>, p: nat, s: seq<nat>)
    requires Distinct(s) && (first == [] || (first == [p] && p !in s))
    ensures Distinct(first + s)
  {
  }

  function Entries(list: seq<nat>): set<nat> { set p | p in list }

  lemma {:induction false} AsMany(list: seq<nat>)
    requires Distinct(list)
    ensures |Entries(list)| == |list|
  {
    if list == [] {
      assert Entries(list) == {};
    } else {
      var n := |list| - 1;
      AsMany(list[..n]);
      assert list == list[..n] + [list[n]];
      assert Entries(list) == Entries(list[..n]) + {list[n]};
    }
  }

  lemma {:induction false} FreeCount(descs: seq<PageDesc>)
    ensures |set p: nat | p < |descs| && descs[p].generation == Free| == CountGen(descs, Free)
  {
    if descs != [] {
      var n := |descs| - 1;
      FreeCount(descs[..n]);
      assert (set p: nat | p < |descs| && descs[p].generation == Free) ==
             (set p: nat | p < |descs[..n]| && descs[..n][p].generation == Free)
             + if descs[n].generation == Free then {n} else {};
    }
  }

  /** A list with every Free page on it has as many on its shelf as there are. */
  lemma ShelfCount(descs: seq<PageDesc>, list: seq<nat>)
    requires forall p | 0 <= p < |descs| && descs[p].generation == Free :: p in list
    ensures |Shelf(descs, list)| == CountGen(descs, Free)
  {
    hide Shelf, CountGen;
    ShelfOnce(descs, list);
    AsMany(Shelf(descs, list));
    FreeCount(descs);
    forall p: nat ensures p in Shelf(descs, list) <==> p < |descs| && descs[p].generation == Free {
      OnShelf(descs, list, p);
    }
    assert Entries(Shelf(descs, list)) == (set p: nat | p < |descs| && descs[p].generation == Free);
  }

  /** The demand so far accounts for every page that was Free before and is not now, for the open
      regions and for the free list. */
  ghost predicate DemandSoFar(before: seq<PageDesc>, v: View, regions: seq<AllocRegion>, freeList: seq<nat>,
                              dest: Generation, d: Demand)
  {
    && HasRegion(dest, Cons) && |regions| == 6 && Fits(d)
    && CountGen(v.descs, Free) + d.Pages() == CountGen(before, Free)
    && d.consFill == FillOf(regions, dest, true) && d.boxedFill == FillOf(regions, dest, false)
    && d.consPage == OpenPage(regions, dest, true) && d.boxedPage == OpenPage(regions, dest, false)
    && d.others == Afresh(regions, dest) && d.shelf == Shelf(v.descs, freeList)
  }

  /** A demand that the pages Free before do not meet. */
  ghost predicate Unmet(before: seq<PageDesc>, d: Demand) {
    Fits(d) && d.Pages() > CountGen(before, Free)
  }

  /** `d` goes beyond `d0` by so many cells, of conses only if `conses`. */
  predicate Grew(d0: Demand, d: Demand, cells: nat, conses: bool) {
    d.Cells() <= d0.Cells() + cells && (conses ==> d.boxedCells == d0.boxedCells)
  }

  /** The mid view of a move, page by page. */
  lemma MovedPages(v: View, mid: View, dest: Generation, kind: PageKind, c: nat, n: nat)
    requires RoomAt(v, mid, dest, kind, c, n) && HasRegion(dest, kind)
    ensures |mid.descs| == |v.descs| && c / PAGE_CELLS < |v.descs|
    ensures mid.descs == if mid == v then v.descs else v.descs[c / PAGE_CELLS := FreshDesc(dest, kind)]
    ensures mid.descs[c / PAGE_CELLS].kind == kind && mid.descs[c / PAGE_CELLS].generation == dest
    ensures mid != v ==> v.descs[c / PAGE_CELLS].generation == Free
  {
  }

  /** One object moved: what becomes of the pages. */
  ghost predicate PagesMoved(v: View, mid: View, w: View, dest: Generation, kind: PageKind, c: nat, n: nat, st: Start) {
    && RoomAt(v, mid, dest, kind, c, n) && HasRegion(dest, kind) && c < |mid.starts|
    && |mid.starts| == |v.starts| == |v.cells|
    && w.descs == Charged(mid, c, n).descs && w.starts == mid.starts[c := st]
  }

  /** One object copied, to where the packing says. */
  lemma DemandStep(before: seq<PageDesc>, v: View, r0: seq<AllocRegion>, free0: seq<nat>, mid: View, w: View,
                   r1: seq<AllocRegion>, free1: seq<nat>, dest: Generation, d: Demand, x: nat, isCons: bool, c: nat,
                   n: nat)
    requires DemandSoFar(before, v, r0, free0, dest, d)
    requires RegionStep(v, r0, free0, mid, r1, free1, dest, isCons, c, n)
    requires n >= 1 && (isCons ==> n == 2)
    requires PagesMoved(v, mid, w, dest, if isCons then Cons else Boxed, c, n,
        if isCons then ConsStart else HeaderStart)
    requires CountGen(w.descs, Free) == CountGen(v.descs, Free) - if mid == v then 0 else 1
    ensures DemandSoFar(before, w, r1, free1, dest, d.More(x, isCons, n)) && c == d.CellFor(isCons, n)
  {
    hide CountGen, Fits, Shelf, Popped, FillOf, OpenPage, Afresh;
    var kind := if isCons then Cons else Boxed;
    FitsMore(d, x, isCons, n);
    RegionFills(v, r0, free0, mid, r1, free1, dest, isCons, c, n);
    ShelfStep(v, mid, w, free0, free1, dest, kind, c, n, if isCons then ConsStart else HeaderStart);
  }

  /** The open pages after an object went to cell `c`. */
  lemma RegionFills(v: View, r0: seq<AllocRegion>, free0: seq<nat>, mid: View, r1: seq<AllocRegion>, free1: seq<nat>,
                    dest: Generation, isCons: bool, c: nat, n: nat)
    requires RegionStep(v, r0, free0, mid, r1, free1, dest, isCons, c, n) && n >= 1
    ensures HasRegion(dest, Cons) && |r1| == 6
    ensures mid != v <==> FillOf(r0, dest, isCons) + n > PAGE_CELLS
    ensures mid == v ==> c == PAGE_CELLS * OpenPage(r0, dest, isCons) + FillOf(r0, dest, isCons)
    ensures mid != v ==> c == PAGE_CELLS * (c / PAGE_CELLS)
    ensures FillOf(r1, dest, isCons) == c % PAGE_CELLS + n && OpenPage(r1, dest, isCons) == c / PAGE_CELLS
    ensures FillOf(r1, dest, !isCons) == FillOf(r0, dest, !isCons)
    ensures OpenPage(r1, dest, !isCons) == OpenPage(r0, dest, !isCons) && Afresh(r1, dest) == Afresh(r0, dest)
  {
    hide Popped;
    assert RegionIndex(dest, Cons) != RegionIndex(dest, Boxed);
  }

  lemma ShelfStep(v: View, mid: View, w: View, free0: seq<nat>, free1: seq<nat>, dest: Generation, kind: PageKind,
                  c: nat, n: nat, st: Start)
    requires PagesMoved(v, mid, w, dest, kind, c, n, st)
    requires mid == v ==> free1 == free0
    requires mid != v ==> Popped(v.descs, free0, free1, c / PAGE_CELLS)
    ensures Shelf(v.descs, free0) == Shelf(w.descs, free1) + if mid == v then [] else [c / PAGE_CELLS]
  {
    hide Popped, Shelf;
    MovedPages(v, mid, dest, kind, c, n);
    if mid != v { ShelfPopped(v.descs, free0, free1, c / PAGE_CELLS, FreshDesc(dest, kind)); }
    ShelfSame(mid.descs, w.descs, free1);
  }

  /** The object for which no page is left asks for one more. */
  lemma DemandUnmet(before: seq<PageDesc>, v: View, regions: seq<AllocRegion>, freeList: seq<nat>, dest: Generation,
                    d: Demand, x: nat, isCons: bool, n: nat)
    requires DemandSoFar(before, v, regions, freeList, dest, d) && NoRoom(regions, dest, isCons, n)
    requires NoFreePage(v.descs)
    requires n >= 1 && (isCons ==> n == 2)
    ensures Unmet(before, d.More(x, isCons, n))
  {
    hide ConsesFit, BoxedFit, Shelf;
    NoneFree(v.descs);
    FitsMore(d, x, isCons, n);
  }

  lemma {:induction false} NoneFree(descs: seq<PageDesc>)
    requires NoFreePage(descs)
    ensures CountGen(descs, Free) == 0
  {
    if descs != [] { NoneFree(descs[..|descs| - 1]); }
  }

  /** At most `cells` cells in all, of conses only if `conses`. */
  predicate Within(d: Demand, cells: nat, conses: bool) {
    d.Cells() <= cells && (conses ==> d.boxedCells == 0)
  }

  /** A page of a chunk adds at most one page of cells. */
  lemma GrewMore(before: Demand, d: Demand, cells: nat, conses: bool, here: bool)
    requires Within(before, cells, conses) && Grew(before, d, PAGE_CELLS, here) && (conses ==> here)
    ensures Within(d, cells + PAGE_CELLS, conses)
  {
  }

  /** A chunk of `n` pages cannot ask for more. */
  lemma AskedBound(d: Demand, i: nat, n: nat, conses: bool)
    requires i <= n && Fits(d) && Within(d, PAGE_CELLS * i, conses)
    ensures d.Pages() <= if conses then n else 2 * n
  {
    hide Fits;
    FitsBound(d, i);
  }

  lemma GrewNone(d: Demand, conses: bool)
    ensures Grew(d, d, 0, conses)
  {
  }

  lemma GrewWider(d0: Demand, d: Demand, a: nat, b: nat, conses: bool)
    requires Grew(d0, d, a, conses) && a <= b
    ensures Grew(d0, d, b, conses)
  {
  }

  lemma GrewStep(d0: Demand, d1: Demand, d2: Demand, a: nat, n: nat, conses: bool, here: bool)
    requires Grew(d0, d1, a, conses) && Grew(d1, d2, n, here) && (conses ==> here)
    ensures Grew(d0, d2, a + n, conses)
  {
  }

  // -- What the reclaim gives back ------------------------------------------

  lemma {:induction false} SameCount(a: seq<PageDesc>, b: seq<PageDesc>, gen: Generation)
    requires |a| == |b| && forall p | 0 <= p < |a| :: a[p].generation == gen <==> b[p].generation == gen
    ensures CountGen(a, gen) == CountGen(b, gen)
  {
    if a != [] { SameCount(a[..|a| - 1], b[..|b| - 1], gen); }
  }

  /** Freeing the pages of a chunk makes as many more Free pages. */
  lemma {:induction false} FreedCount(before: seq<PageDesc>, after: seq<PageDesc>, chunk: seq<nat>)
    requires |before| == |after| && forall i, j | 0 <= i < j < |chunk| :: chunk[i] != chunk[j]
    requires forall i | 0 <= i < |chunk| ::
               chunk[i] < |before| && before[chunk[i]].generation != Free && after[chunk[i]].generation == Free
    requires forall p | 0 <= p < |before| && p !in chunk ::
               before[p].generation == Free <==> after[p].generation == Free
    ensures CountGen(after, Free) == CountGen(before, Free) + |chunk|
    decreases |chunk|
  {
    if chunk == [] {
      SameCount(before, after, Free);
    } else {
      var n := |chunk| - 1;
      var p := chunk[n];
      var mid := after[p := before[p]];
      forall q | 0 <= q < |before| && q !in chunk[..n]
        ensures before[q].generation == Free <==> mid[q].generation == Free {
        if q in chunk { assert q == p; }
      }
      FreedCount(before, mid, chunk[..n]);
      CountChange(after, p, before[p], Free);
    }
  }
}
