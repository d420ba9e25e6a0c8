/** What a pass will do, read off the heap before it: how it is cut into chunks, whether the
    Free pages suffice, how many are left, and whether any pointer leads back. */
module Plans {
  import opened Bitmaps
  import opened Pages
  import opened Objects
  import opened PageHeaps
  import opened Demands
  import opened Copying
  import opened Reclaiming
  import opened EvacMarking
  import opened PassGraph

  // -- How the source pages are cut into chunks -----------------------------

  /** Seven eighths of the free pages that will come back, at least one, at most what is left. */
  function Cut(free: nat, pending: nat, remaining: nat): (n: nat)
    requires remaining >= 1
    ensures 1 <= n <= remaining
  {
    var budget := (if free >= pending then free - pending else 0) * 7 / 8;
    var wanted := if budget >= 1 then budget else 1;
    if wanted <= remaining then wanted else remaining
  }

  /** Pages of `from` that carry a pinned object and will be flipped, not freed. */
  function PinnedPages(descs: seq<PageDesc>, pins: set<nat>, from: Generation): set<nat> {
    set p | p in PagesOf(pins) && p < |descs| && descs[p].generation == from
  }

  function ChunkSize(descs: seq<PageDesc>, pins: set<nat>, from: Generation, remaining: nat): (n: nat)
    requires remaining >= 1
    ensures 1 <= n <= remaining
  {
    Cut(CountGen(descs, Free), |PinnedPages(descs, pins, from)|, remaining)
  }

  /** The pages from the `i`th on. */
  function Tail(pages: seq<nat>, i: nat): set<nat>
    requires i <= |pages|
  {
    set p | p in pages[i..]
  }

  /** The pinned source pages that count as pending with `rest` still to come: within one
      generation a flipped page goes on counting. */
  function Pending(descs: seq<PageDesc>, pins: set<nat>, from: Generation, dest: Generation, rest: set<nat>): set<nat> {
    set p | p in PinnedPages(descs, pins, from) && (from == dest || p in rest)
  }

  /** The pages of a chunk that will be released: those with neither a pin byte nor a pinned cell. */
  function Released(descs: seq<PageDesc>, pins: set<nat>, chunk: seq<nat>): (r: seq<nat>)
    ensures forall p | p in r :: p in chunk
  {
    if chunk == [] then [] else
      var p := chunk[|chunk| - 1];
      Released(descs, pins, chunk[..|chunk| - 1])
      + if (p < |descs| && descs[p].HasPins()) || p in PagesOf(pins) then [] else [p]
  }

  // -- The pass, chunk by chunk ---------------------------------------------

  /** Whether the Free pages suffice for every chunk, how many are Free at the end, what the
      last chunk leaves open, and whether no live pointer leads from a later chunk back into
      an earlier one. */
  datatype Plan = Plan(affords: bool, free: nat, demand: Demand, straight: bool)

  ghost function PlanFrom(g: Geometry, v: View, live: set<nat>, pins: set<nat>, from: Generation, dest: Generation,
                          pages: seq<nat>, i: nat, free: nat, d: Demand): Plan
    requires i <= |pages|
    decreases |pages| - i
  {
    if i == |pages| then Plan(true, free, d, true) else
      var n := Cut(free, |Pending(v.descs, pins, from, dest, Tail(pages, i))|, |pages| - i);
      var chunk := pages[i..i + n];
      var asked := PackChunk(g, v, live - pins, from, chunk, n, d);
      var freed := Released(v.descs, pins, chunk);
      if asked.Pages() > free then Plan(false, free, asked, true) else
        var onward := PlanFrom(g, v, live, pins, from, dest, pages, i + n, free - asked.Pages() + |freed|,
          asked.Next(freed));
        onward.(straight := onward.straight && NoBack(g, v, live, pins, Members(chunk), Tail(pages, i + n)))
  }

  /** One chunk of the plan. */
  lemma PlanNext(g: Geometry, v: View, live: set<nat>, pins: set<nat>, from: Generation, dest: Generation,
                 pages: seq<nat>, i: nat, free: nat, d: Demand, n: nat, chunk: seq<nat>, asked: Demand, freed: seq<nat>)
    requires i < |pages| && n == Cut(free, |Pending(v.descs, pins, from, dest, Tail(pages, i))|, |pages| - i)
    requires chunk == pages[i..i + n] && asked == PackChunk(g, v, live - pins, from, chunk, n, d)
    requires freed == Released(v.descs, pins, chunk)
    ensures PlanFrom(g, v, live, pins, from, dest, pages, i, free, d) ==
            if asked.Pages() > free then Plan(false, free, asked, true) else
              var onward := PlanFrom(g, v, live, pins, from, dest, pages, i + n, free - asked.Pages() + |freed|,
                asked.Next(freed));
              onward.(straight := onward.straight && NoBack(g, v, live, pins, Members(chunk), Tail(pages, i + n)))
  {
    hide Cut, PackChunk, Released, Pending, NoBack, PinnedPages;
  }

  lemma PlanEnd(g: Geometry, v: View, live: set<nat>, pins: set<nat>, from: Generation, dest: Generation,
                pages: seq<nat>, free: nat, d: Demand)
    ensures PlanFrom(g, v, live, pins, from, dest, pages, |pages|, free, d) == Plan(true, free, d, true)
  {
  }

  /** The object at `s` is the only one of `live` on the source page `p`. */
  ghost predicate AloneOn(g: Geometry, v: View, live: set<nat>, from: Generation, p: nat, s: nat) {
    && p < |v.descs| && v.descs[p].generation == from && v.descs[p].kind != Large && !v.descs[p].HasPins()
    && s < |v.starts| && s < |v.cells| && s / PAGE_CELLS == p && s in live
          && (forall c | c in live && c / PAGE_CELLS == p :: c == s)
    && SizeOf(g, v, s) >= 1 && s + SizeOf(g, v, s) <= PAGE_CELLS * (p + 1)
  }

  /** The plan for a chunk of one page, nothing being pinned. */
  lemma PlanPage(g: Geometry, v: View, live: set<nat>, from: Generation, dest: Generation, pages: seq<nat>, i: nat,
                 free: nat, d: Demand, p: nat, asked: Demand)
    requires i < |pages| && Cut(free, 0, |pages| - i) == 1 && p == pages[i]
    requires p < |v.descs| && v.descs[p].generation == from && v.descs[p].kind != Large && !v.descs[p].HasPins()
    requires asked == PackCells(g, v, live, p, PAGE_CELLS * (p + 1), d) && asked.Pages() <= free
    ensures PlanFrom(g, v, live, {}, from, dest, pages, i, free, d) ==
            var onward := PlanFrom(g, v, live, {}, from, dest, pages, i + 1, free - asked.Pages() + 1, asked.Next([p]));
            onward.(straight := onward.straight && NoBack(g, v, live, {}, {p}, Tail(pages, i + 1)))
  {
    hide Cut, NoBack, PlanFrom, PackChunk, PackCells;
    var chunk := pages[i..i + 1];
    assert chunk == [p] && live - {} == live && Members([p]) == {p};
    assert Pending(v.descs, {}, from, dest, Tail(pages, i)) == {};
    PackOnePage(g, v, live, from, p, d);
    OneReleased(v.descs, p);
    PlanNext(g, v, live, {}, from, dest, pages, i, free, d, 1, chunk, asked, [p]);
  }

  /** The plan for a chunk of one page with one object on it. */
  lemma PlanOne(g: Geometry, v: View, live: set<nat>, from: Generation, dest: Generation, pages: seq<nat>, i: nat,
                free: nat, d: Demand, s: nat, asked: Demand)
    requires i < |pages| && Cut(free, 0, |pages| - i) == 1
    requires AloneOn(g, v, live, from, pages[i], s)
    requires asked == d.More(s, v.starts[s] == ConsStart, SizeOf(g, v, s)) && asked.Pages() <= free
    ensures PlanFrom(g, v, live, {}, from, dest, pages, i, free, d) ==
            var onward := PlanFrom(g, v, live, {}, from, dest, pages, i + 1, free - asked.Pages() + 1,
              asked.Next([pages[i]]));
            onward.(straight := onward.straight && NoBack(g, v, live, {}, {pages[i]}, Tail(pages, i + 1)))
  {
    hide Cut, NoBack, PlanFrom, SizeOf, PackCells;
    PackOne(g, v, live, pages[i], s, d);
    PlanPage(g, v, live, from, dest, pages, i, free, d, pages[i], asked);
  }

  lemma OneReleased(descs: seq<PageDesc>, p: nat)
    requires p < |descs| && !descs[p].HasPins()
    ensures Released(descs, {}, [p]) == [p]
  {
    assert [p][..0] == [] && Released(descs, {}, []) == [];
  }

  /** No source page holds more than one object that moves. */
  ghost predicate Singles(g: Geometry, v: View, live: set<nat>, from: Generation, pages: seq<nat>) {
    && (forall p | p in pages :: p < |v.descs| && v.descs[p].generation == from && v.descs[p].kind != Large
          && !v.descs[p].HasPins())
    && (forall c | c in live && c / PAGE_CELLS in pages ::
          c < |v.starts| && c < |v.cells| && SizeOf(g, v, c) >= 1 && c % PAGE_CELLS + SizeOf(g, v, c) <= PAGE_CELLS)
    && (forall c, e | c in live && e in live && c / PAGE_CELLS in pages && c / PAGE_CELLS == e / PAGE_CELLS :: c == e)
  }

  /** Then a chunk asks for no more pages than it has. */
  lemma {:induction false} SinglesAsk(g: Geometry, v: View, live: set<nat>, from: Generation, pages: seq<nat>,
                                      chunk: seq<nat>, i: nat, d: Demand)
    requires Singles(g, v, live, from, pages) && i <= |chunk| && forall p | p in chunk :: p in pages
    ensures PackChunk(g, v, live, from, chunk, i, d).Pages() <= d.Pages() + i
    decreases i
  {
    hide SizeOf, PackCells;
    if i > 0 {
      SinglesAsk(g, v, live, from, pages, chunk, i - 1, d);
      var p := chunk[i - 1];
      assert p in chunk;
      var before := PackChunk(g, v, live, from, chunk, i - 1, d);
      if c :| c in live && c / PAGE_CELLS == p {
        PackOne(g, v, live, p, c, before);
      } else {
        assert forall c | PAGE_CELLS * p <= c < PAGE_CELLS * (p + 1) :: c / PAGE_CELLS == p;
        PackNone(g, v, live, p, PAGE_CELLS * p, PAGE_CELLS * (p + 1), before);
        PackFirst(g, v, live, p, before);
      }
    }
  }

  lemma {:induction false} AllReleased(descs: seq<PageDesc>, chunk: seq<nat>)
    requires forall p | p in chunk :: p < |descs| && !descs[p].HasPins()
    ensures Released(descs, {}, chunk) == chunk
  {
    if chunk != [] {
      var n := |chunk| - 1;
      AllReleased(descs, chunk[..n]);
      assert chunk[n] in chunk && chunk == chunk[..n] + [chunk[n]];
    }
  }

  /** So with one Free page to begin with such a pass never runs out, in however many chunks. */
  lemma {:induction false} SinglesAfford(g: Geometry, v: View, live: set<nat>, from: Generation, dest: Generation,
                                         pages: seq<nat>, i: nat, free: nat, d: Demand)
    requires Singles(g, v, live, from, pages) && i <= |pages| && free >= 1 && d.Pages() == 0
    ensures PlanFrom(g, v, live, {}, from, dest, pages, i, free, d).affords
    decreases |pages| - i
  {
    hide Singles, PlanFrom, Released, PackChunk, NoBack;
    if i == |pages| {
      PlanEnd(g, v, live, {}, from, dest, pages, free, d);
    } else {
      assert Pending(v.descs, {}, from, dest, Tail(pages, i)) == {} && live - {} == live;
      var n := Cut(free, 0, |pages| - i);
      var chunk := pages[i..i + n];
      forall p | p in chunk ensures p in pages {}
      SinglesAsk(g, v, live, from, pages, chunk, n, d);
      AllReleased(v.descs, chunk) by { SinglesPages(g, v, live, from, pages); }
      var asked := PackChunk(g, v, live, from, chunk, n, d);
      PlanNext(g, v, live, {}, from, dest, pages, i, free, d, n, chunk, asked, chunk);
      SinglesAfford(g, v, live, from, dest, pages, i + n, free - asked.Pages() + n, asked.Next(chunk));
    }
  }

  lemma SinglesPages(g: Geometry, v: View, live: set<nat>, from: Generation, pages: seq<nat>)
    requires Singles(g, v, live, from, pages)
    ensures forall p | p in pages :: p < |v.descs| && !v.descs[p].HasPins()
  {
  }

  /** What the open regions of `dest` and the free list offer at the start; the regions of the
      source start afresh. */
  function FirstDemand(regions: seq<AllocRegion>, shelf: seq<nat>, from: Generation, dest: Generation): Demand
    requires HasRegion(dest, Cons) && |regions| == 6
  {
    var now := Afresh(regions, from);
    Demand(0, 0, 0, 0, FillOf(now, dest, true), FillOf(now, dest, false), OpenPage(now, dest, true),
           OpenPage(now, dest, false), shelf, Afresh(now, dest), map[])
  }

  /** The plan of a whole pass that keeps `live`, with the free list giving out the pages of `shelf`. */
  ghost function PlanPass(g: Geometry, v: View, regions: seq<AllocRegion>, shelf: seq<nat>, live: set<nat>,
                          pins: set<nat>, from: Generation, dest: Generation): Plan
    requires HasRegion(dest, Cons) && |regions| == 6
  {
    PlanFrom(g, v, live, pins, from, dest, PagesIn(v.descs, from), 0, CountGen(v.descs, Free),
             FirstDemand(regions, shelf, from, dest))
  }

  /** The pass fits one chunk. */
  predicate OneChunk(descs: seq<PageDesc>, pins: set<nat>, from: Generation) {
    var n := |PagesIn(descs, from)|;
    n == 0 || ChunkSize(descs, pins, from, n) == n
  }

  /** The plan puts a headed object on a page of the source, which the pass has given back meanwhile. */
  ghost predicate Reopens(v: View, from: Generation, plan: Plan) {
    exists s :: s in plan.demand.at && PutBack(v, from, s, plan.demand.at[s])
  }

  predicate PutBack(v: View, from: Generation, s: nat, t: nat) {
    && s < |v.starts| && v.starts[s] == HeaderStart
    && t / PAGE_CELLS < |v.descs| && v.descs[t / PAGE_CELLS].generation == from
  }

  /** The plan of a pass in one chunk. */
  lemma OnePlan(g: Geometry, v: View, regions: seq<AllocRegion>, shelf: seq<nat>, live: set<nat>, pins: set<nat>,
                from: Generation, dest: Generation)
    requires HasRegion(dest, Cons) && |regions| == 6 && OneChunk(v.descs, pins, from)
    ensures var (plan, pages) := (PlanPass(g, v, regions, shelf, live, pins, from, dest), PagesIn(v.descs, from));
      && plan.straight
      && (plan.affords ==>
            PackChunk(g, v, live - pins, from, pages, |pages|, FirstDemand(regions, shelf, from, dest)).Pages()
                             <= CountGen(v.descs, Free))
      && plan.demand.at ==
         PackChunk(g, v, live - pins, from, pages, |pages|, FirstDemand(regions, shelf, from, dest)).at
  {
    hide PackChunk, PagesIn, BackAt, NoBack, Released, Cut, PinnedPages, Pending, PlanFrom, FirstDemand, CountGen;
    var pages, free, d := PagesIn(v.descs, from), CountGen(v.descs, Free), FirstDemand(regions, shelf, from, dest);
    if pages == [] {
      PlanEnd(g, v, live, pins, from, dest, pages, free, d);
      NoPage(g, v, live - pins, from, d);
      FreshStart(regions, shelf, from, dest);
    } else {
      AllPending(v.descs, pins, from, dest, pages);
      var asked, freed := PackChunk(g, v, live - pins, from, pages, |pages|, d), Released(v.descs, pins, pages);
      assert pages == pages[0..|pages|] && Tail(pages, |pages|) == {};
      NowhereBack(g, v, live, pins, Members(pages));
      PlanNext(g, v, live, pins, from, dest, pages, 0, free, d, |pages|, pages, asked, freed);
      if asked.Pages() <= free {
        PlanEnd(g, v, live, pins, from, dest, pages, free - asked.Pages() + |freed|, asked.Next(freed));
      }
    }
  }

  lemma NoPage(g: Geometry, v: View, move: set<nat>, from: Generation, d: Demand)
    ensures PackChunk(g, v, move, from, [], 0, d) == d
  {
  }

  lemma FreshStart(regions: seq<AllocRegion>, shelf: seq<nat>, from: Generation, dest: Generation)
    requires HasRegion(dest, Cons) && |regions| == 6
    ensures FirstDemand(regions, shelf, from, dest).Pages() == 0
  {
  }

  /** Every Free page is on the list. */
  predicate FreeListed(descs: seq<PageDesc>, list: seq<nat>) {
    forall p | 0 <= p < |descs| && descs[p].generation == Free :: p in list
  }

  /** A pass in one chunk has nowhere to point back from, and no page given back to open again. */
  lemma OneIsStraight(g: Geometry, v: View, regions: seq<AllocRegion>, list: seq<nat>, live: set<nat>, pins: set<nat>,
                      from: Generation, dest: Generation)
    requires HasRegion(dest, Cons) && |regions| == 6 && OneChunk(v.descs, pins, from) && from != Free
    ensures PlanPass(g, v, regions, Shelf(v.descs, list), live, pins, from, dest).straight
    ensures RegionsOk(v.descs, regions) && FreeListed(v.descs, list) && Sized(g, v, live) ==>
              var plan := PlanPass(g, v, regions, Shelf(v.descs, list), live, pins, from, dest);
              plan.affords ==> !Reopens(v, from, plan)
  {
    hide PackChunk, PagesIn, PlanPass, FirstDemand, Shelf, CountGen, OneChunk, Sized, Supplied, RegionsOk;
    var shelf, pages := Shelf(v.descs, list), PagesIn(v.descs, from);
    OnePlan(g, v, regions, shelf, live, pins, from, dest);
    var plan, d := PlanPass(g, v, regions, shelf, live, pins, from, dest), FirstDemand(regions, shelf, from, dest);
    if RegionsOk(v.descs, regions) && FreeListed(v.descs, list) && Sized(g, v, live) && plan.affords {
      ShelfCount(v.descs, list);
      var ok := set p | 0 <= p < |v.descs| && v.descs[p].generation != from;
      FirstSupplied(v.descs, regions, list, from, dest, ok);
      SizedFewer(g, v, live, pins);
      ChunkSupplied(g, v, live - pins, from, pages, |pages|, d, ok, |shelf|);
      forall s | s in plan.demand.at ensures !PutBack(v, from, s, plan.demand.at[s]) {
        assert plan.demand.at[s] / PAGE_CELLS in ok by {
          ChunkSuppliedAt(PackChunk(g, v, live - pins, from, pages, |pages|, d), ok, |shelf|, s);
        }
      }
    }
  }

  /** Every object of `live` has a size. */
  ghost predicate Sized(g: Geometry, v: View, live: set<nat>) {
    forall s | s in live && s < |v.starts| && s < |v.cells| :: SizeOf(g, v, s) >= 1
  }

  lemma SizedFewer(g: Geometry, v: View, live: set<nat>, pins: set<nat>)
    requires Sized(g, v, live)
    ensures Sized(g, v, live - pins)
  {
    hide SizeOf;
  }

  /** Pages are taken from `ok` only, and so many at most. */
  ghost predicate Supplied(d: Demand, ok: set<nat>, count: nat) {
    && (forall p | p in d.shelf :: p in ok) && |d.shelf| + d.Pages() == count
    && (d.consFill < PAGE_CELLS ==> d.consPage in ok) && (d.boxedFill < PAGE_CELLS ==> d.boxedPage in ok)
    && forall s | s in d.at :: d.at[s] / PAGE_CELLS in ok
  }

  lemma ChunkSuppliedAt(d: Demand, ok: set<nat>, count: nat, s: nat)
    requires Supplied(d, ok, count) && s in d.at
    ensures d.at[s] / PAGE_CELLS in ok
  {
  }

  lemma MoreSupplied(d: Demand, x: nat, isCons: bool, n: nat, ok: set<nat>, count: nat)
    requires Supplied(d, ok, count) && n >= 1 && d.More(x, isCons, n).Pages() <= count
    ensures Supplied(d.More(x, isCons, n), ok, count)
  {
    var page := d.PageFor(isCons, n);
    assert page in ok;
    if !d.Overflows(isCons, n) {
      assert (PAGE_CELLS * page + if isCons then d.consFill else d.boxedFill) / PAGE_CELLS == page;
    }
    assert d.CellFor(isCons, n) / PAGE_CELLS == page;
  }

  lemma {:induction false} CellsSupplied(g: Geometry, v: View, move: set<nat>, p: nat, x: nat, d: Demand, ok: set<nat>,
                                         count: nat)
    requires Supplied(d, ok, count) && Sized(g, v, move) && PackCells(g, v, move, p, x, d).Pages() <= count
    ensures Supplied(PackCells(g, v, move, p, x, d), ok, count)
    decreases x
  {
    hide Supplied, SizeOf;
    if x > PAGE_CELLS * p {
      CellsSupplied(g, v, move, p, x - 1, d, ok, count);
      if x - 1 in move && x - 1 < |v.starts| && x - 1 < |v.cells| {
        MoreSupplied(PackCells(g, v, move, p, x - 1, d), x - 1, v.starts[x - 1] == ConsStart, SizeOf(g, v, x - 1), ok,
          count);
      }
    }
  }

  lemma {:induction false} ChunkSupplied(g: Geometry, v: View, move: set<nat>, from: Generation, chunk: seq<nat>,
                                         i: nat, d: Demand, ok: set<nat>, count: nat)
    requires i <= |chunk| && Supplied(d, ok, count) && Sized(g, v, move)
    requires PackChunk(g, v, move, from, chunk, i, d).Pages() <= count
    ensures Supplied(PackChunk(g, v, move, from, chunk, i, d), ok, count)
    decreases i
  {
    hide Supplied, Sized, PackCells;
    if i > 0 {
      ChunkGrows(g, v, move, from, chunk, i - 1, i, d);
      ChunkSupplied(g, v, move, from, chunk, i - 1, d, ok, count);
      var p := chunk[i - 1];
      if p < |v.descs| && v.descs[p].generation == from && v.descs[p].kind != Large {
        CellsSupplied(g, v, move, p, PAGE_CELLS * (p + 1), PackChunk(g, v, move, from, chunk, i - 1, d), ok, count);
      }
    }
  }

  lemma FirstSupplied(descs: seq<PageDesc>, regions: seq<AllocRegion>, list: seq<nat>, from: Generation,
                      dest: Generation, ok: set<nat>)
    requires HasRegion(dest, Cons) && |regions| == 6 && RegionsOk(descs, regions) && from != Free
    requires ok == set p | 0 <= p < |descs| && descs[p].generation != from
    ensures Supplied(FirstDemand(regions, Shelf(descs, list), from, dest), ok, |Shelf(descs, list)|)
  {
    hide Shelf;
    forall p | p in Shelf(descs, list) ensures p in ok { OnShelf(descs, list, p); }
    if from != dest {
      OpenSupplied(descs, regions, from, dest, Cons);
      OpenSupplied(descs, regions, from, dest, Boxed);
    }
  }

  lemma OpenSupplied(descs: seq<PageDesc>, regions: seq<AllocRegion>, from: Generation, dest: Generation,
                     kind: PageKind)
    requires HasRegion(dest, kind) && |regions| == 6 && RegionsOk(descs, regions) && from != dest && from != Free
    ensures Afresh(regions, from)[RegionIndex(dest, kind)] == regions[RegionIndex(dest, kind)]
    ensures var r := regions[RegionIndex(dest, kind)];
      r.currentPage.Some? ==> r.currentPage.value < |descs| && descs[r.currentPage.value].generation == dest
  {
    var i := RegionIndex(dest, kind);
    assert RegionIndex(from, Cons) != i && RegionIndex(from, Boxed) != i;
    if regions[i].currentPage.Some? { assert RegionOk(descs, regions[i], RegionGen(i), RegionKind(i)); }
  }

  // -- Where the plan puts objects ------------------------------------------

  /** Later chunks leave what was put before where it is. */
  lemma {:induction false} PlanPuts(g: Geometry, v: View, live: set<nat>, pins: set<nat>, from: Generation,
                                    dest: Generation, pages: seq<nat>, i: nat, free: nat, d: Demand, s: nat)
    requires i <= |pages| && s / PAGE_CELLS !in Tail(pages, i)
    ensures var at := PlanFrom(g, v, live, pins, from, dest, pages, i, free, d).demand.at;
      (s in at <==> s in d.at) && (s in d.at ==> at[s] == d.at[s])
    decreases |pages| - i
  {
    hide PackChunk, Cut, NoBack, PlanFrom, Released, Pending;
    if i == |pages| {
      PlanEnd(g, v, live, pins, from, dest, pages, free, d);
    } else {
      var n := Cut(free, |Pending(v.descs, pins, from, dest, Tail(pages, i))|, |pages| - i);
      var chunk := pages[i..i + n];
      var asked, freed := PackChunk(g, v, live - pins, from, chunk, n, d), Released(v.descs, pins, chunk);
      PlanNext(g, v, live, pins, from, dest, pages, i, free, d, n, chunk, asked, freed);
      TailSplit(pages, i, n, s / PAGE_CELLS);
      ChunkPuts(g, v, live - pins, from, chunk, n, d, s);
      if asked.Pages() <= free {
        PlanPuts(g, v, live, pins, from, dest, pages, i + n, free - asked.Pages() + |freed|, asked.Next(freed), s);
      }
    }
  }

  lemma TailSplit(pages: seq<nat>, i: nat, n: nat, p: nat)
    requires i + n <= |pages| && p !in Tail(pages, i)
    ensures p !in Tail(pages, i + n) && p !in pages[i..i + n][..n]
  {
    assert pages[i..] == pages[i..i + n] + pages[i + n..];
  }

  lemma AllPending(descs: seq<PageDesc>, pins: set<nat>, from: Generation, dest: Generation, pages: seq<nat>)
    requires pages == PagesIn(descs, from)
    ensures Pending(descs, pins, from, dest, Tail(pages, 0)) == PinnedPages(descs, pins, from)
  {
  }

  lemma NowhereBack(g: Geometry, v: View, live: set<nat>, pins: set<nat>, chunk: set<nat>)
    ensures NoBack(g, v, live, pins, chunk, {})
  {
  }

  // -- The same plan --------------------------------------------------------

  lemma {:induction false} ReleasedUnpinned(a: seq<PageDesc>, b: seq<PageDesc>, pins: set<nat>, chunk: seq<nat>)
    requires |a| == |b|
    requires forall p | p in chunk && p < |a| :: b[p].HasPins() <==> a[p].HasPins() || p in PagesOf(pins)
    requires forall p | p in chunk :: p < |a|
    ensures Released(a, pins, chunk) == Unpinned(b, chunk)
  {
    hide PagesOf;
    if chunk != [] {
      var n := |chunk| - 1;
      assert chunk == chunk[..n] + [chunk[n]];
      forall p | p in chunk[..n] ensures p in chunk {}
      ReleasedUnpinned(a, b, pins, chunk[..n]);
      assert chunk[n] in chunk && chunk[n] < |a|;
    }
  }

  /** Pin bytes that stand for pinned cells make no difference to the plan. */
  lemma {:induction false} PlanSansPins(g: Geometry, v: View, vs: View, live: set<nat>, pins: set<nat>,
                                        from: Generation, dest: Generation, pages: seq<nat>, i: nat, free: nat,
                                        d: Demand)
    requires Shaped(g, v) && PinBytesOnly(v, vs) && PinnedBy(v, vs, pins) && i <= |pages|
    requires forall p | p in pages :: p < |v.descs|
    requires forall s | s in live :: s < |v.starts|
    ensures PlanFrom(g, vs, live, pins, from, dest, pages, i, free, d) == PlanFrom(g, v, live, pins, from, dest, pages,
        i, free, d)
    decreases |pages| - i
  {
    hide PackChunk, Cut, NoBack, PagesOf, PlanFrom, Released, Pending, PinBytesOnly, PinnedBy;
    if i == |pages| {
      PlanEnd(g, v, live, pins, from, dest, pages, free, d);
      PlanEnd(g, vs, live, pins, from, dest, pages, free, d);
    } else {
      var rest := Tail(pages, i);
      PendingSansPins(v, vs, pins, from, dest, rest);
      var n := Cut(free, |Pending(v.descs, pins, from, dest, rest)|, |pages| - i);
      var chunk := pages[i..i + n];
      forall p | p in chunk ensures p in pages {}
      PackSansPins(g, v, vs, live - pins, from, chunk, d);
      ReleasedSansPins(v, vs, pins, chunk);
      BackSansPins(g, v, vs, live, pins, Members(chunk), Tail(pages, i + n));
      var asked, freed := PackChunk(g, v, live - pins, from, chunk, n, d), Released(v.descs, pins, chunk);
      PlanNext(g, v, live, pins, from, dest, pages, i, free, d, n, chunk, asked, freed);
      PlanNext(g, vs, live, pins, from, dest, pages, i, free, d, n, chunk, asked, freed);
      if asked.Pages() <= free {
        PlanSansPins(g, v, vs, live, pins, from, dest, pages, i + n, free - asked.Pages() + |freed|, asked.Next(freed));
      }
    }
  }

  lemma ReleasedSansPins(v: View, vs: View, pins: set<nat>, chunk: seq<nat>)
    requires PinBytesOnly(v, vs) && PinnedBy(v, vs, pins) && forall p | p in chunk :: p < |v.descs|
    ensures Released(vs.descs, pins, chunk) == Released(v.descs, pins, chunk)
  {
    hide PagesOf;
    ReleasedUnpinned(v.descs, vs.descs, pins, chunk);
    ReleasedUnpinned(vs.descs, vs.descs, pins, chunk);
  }

  lemma PendingSansPins(v: View, vs: View, pins: set<nat>, from: Generation, dest: Generation, rest: set<nat>)
    requires PinBytesOnly(v, vs)
    ensures Pending(vs.descs, pins, from, dest, rest) == Pending(v.descs, pins, from, dest, rest)
  {
    assert PinnedPages(vs.descs, pins, from) == PinnedPages(v.descs, pins, from);
  }

  lemma PackSansPins(g: Geometry, v: View, vs: View, move: set<nat>, from: Generation, chunk: seq<nat>, d: Demand)
    requires Shaped(g, v) && PinBytesOnly(v, vs) && (forall p | p in chunk :: p < |v.descs|)
    requires forall s | s in move :: s < |v.starts|
    ensures PackChunk(g, vs, move, from, chunk, |chunk|, d) == PackChunk(g, v, move, from, chunk, |chunk|, d)
  {
    forall j | 0 <= j < |chunk| ensures chunk[j] < |v.descs| && SameUse(v.descs[chunk[j]], vs.descs[chunk[j]]) {
      assert chunk[j] in chunk;
    }
    ChunkSame(g, v, vs, move, move, from, chunk, |chunk|, d);
  }

  lemma BackSansPins(g: Geometry, v: View, vs: View, live: set<nat>, pins: set<nat>, chunk: set<nat>, later: set<nat>)
    requires PinBytesOnly(v, vs)
    ensures NoBack(g, vs, live, pins, chunk, later) <==> NoBack(g, v, live, pins, chunk, later)
  {
    forall s: nat, i: nat
      ensures BackAt(g, vs, live, pins, chunk, later, s, i) <==> BackAt(g, v, live, pins, chunk, later, s, i) {}
    hide BackAt;
  }
}
