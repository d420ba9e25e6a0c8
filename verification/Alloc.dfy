/** Central allocation: free pages, bump regions, TLAB slabs and large runs. */
module Alloc {
  import opened Options
  import opened Bitmaps
  import opened Pages
  import opened Objects
  import opened PageHeaps

  // -- What the allocation steps do to a view -------------------------------

  /** Free page `p` handed to (gen, kind): zero memory, no starts. */
  function OpenedPage(v: View, p: nat, gen: Generation, kind: PageKind): View
    requires p < |v.descs|
  {
    View(ClearedOn(v.cells, p, 0), ClearedOn(v.starts, p, NoStart), v.descs[p := FreshDesc(gen, kind)])
  }

  /** `n` more cells of the page of `c` in use, from `c` on. */
  function Charged(v: View, c: nat, n: nat): View
    requires c / PAGE_CELLS < |v.descs|
  {
    var p := c / PAGE_CELLS;
    v.(descs := v.descs[p := v.descs[p].(wordsUsed := c % PAGE_CELLS + n)])
  }

  /** An object start recorded at `c`. */
  function Started(v: View, c: nat, st: Start): View
    requires c < |v.starts|
  {
    v.(starts := v.starts[c := st])
  }

  /** `w` is `v`, or `v` with the Free page of `c` opened for (gen, kind) and `c` its first cell. */
  ghost predicate RoomAt(v: View, w: View, gen: Generation, kind: PageKind, c: nat, n: nat) {
    && 1 <= n && c % PAGE_CELLS + n <= PAGE_CELLS
    && c / PAGE_CELLS < |v.descs| && c < |v.starts| == |v.cells|
    && (|| (w == v && v.descs[c / PAGE_CELLS].generation == gen && v.descs[c / PAGE_CELLS].kind == kind)
        || (v.descs[c / PAGE_CELLS].generation == Free && c % PAGE_CELLS == 0
            && w == OpenedPage(v, c / PAGE_CELLS, gen, kind)))
    && w.descs[c / PAGE_CELLS].wordsUsed == c % PAGE_CELLS
  }

  ghost predicate NoFreePage(descs: seq<PageDesc>) {
    forall p | 0 <= p < |descs| :: descs[p].generation != Free
  }

  // -- The free-page list ---------------------------------------------------

  /** `release_page_to_free`. */
  method ReleasePageToFree(h: PageHeap, p: nat, zeroed: bool)
    requires h.Valid() && p < h.nPages
    modifies h`descs, h`freeList
    ensures h.Valid()
    ensures h.descs == old(h.descs)[p := FREE_DESC.(zeroed := zeroed)]
    ensures h.freeList == old(h.freeList) + [p]
  {
    h.descs := h.descs[p := FREE_DESC.(zeroed := zeroed)];
    h.freeList := h.freeList + [p];
  }

  /** From `before` entries that are not Free any more were dropped off the end, and then `p` was popped. */
  ghost predicate Popped(descs: seq<PageDesc>, before: seq<nat>, after: seq<nat>, p: nat) {
    && |after| < |before| && after == before[..|after|] && before[|after|] == p
    && forall j | |after| < j < |before| :: before[j] < |descs| && descs[before[j]].generation != Free
  }

  /** Pops entries until one is still Free. The list covers every Free page, so
      running out of entries means there is no Free page, and the linear scan
      the collector falls back to could find none. */
  method PopFree(h: PageHeap) returns (found: Option<nat>)
    requires h.Valid() && PagesOk(h.descs, h.committed, h.freeList, h.highWater)
    modifies h`freeList
    ensures h.Valid()
    ensures forall i | 0 <= i < |h.freeList| :: h.freeList[i] < |h.descs|
    ensures found.None? ==> NoFreePage(h.descs) && h.freeList == []
    ensures found.Some? ==> found.value < h.nPages && h.descs[found.value].generation == Free
    ensures forall p | 0 <= p < h.nPages && h.descs[p].generation == Free && Some(p) != found :: p in h.freeList
    ensures found.Some? ==> Popped(h.descs, old(h.freeList), h.freeList, found.value)
  {
    found := None;
    while h.freeList != [] && found.None?
      invariant h.freeList <= old(h.freeList)
      invariant found.None? ==> forall j | |h.freeList| <= j < |old(h.freeList)| ::
                  h.descs[old(h.freeList)[j]].generation != Free
      invariant found.Some? ==> Popped(h.descs, old(h.freeList), h.freeList, found.value)
      invariant found.Some? ==> found.value < h.nPages && h.descs[found.value].generation == Free
      invariant forall p | 0 <= p < h.nPages && h.descs[p].generation == Free && Some(p) != found :: p in h.freeList
      decreases |h.freeList|
    {
      var top := |h.freeList| - 1;
      var i := h.freeList[top];
      assert h.freeList == h.freeList[..top] + [i];
      h.freeList := h.freeList[..top];
      if h.descs[i].generation == Free {
        found := Some(i);
      }
    }
  }

  /** `acquire_free_page`: a Free page becomes an empty page of (gen, kind), all
      zero and without starts; `None` exactly when no page is Free. */
  method AcquireFreePage(h: PageHeap, gen: Generation, kind: PageKind) returns (r: Option<nat>)
    requires h.Inv() && HasRegion(gen, kind)
    modifies h`descs, h`committed, h`freeList, h`highWater, h.cells, h.startTable.bits
    ensures h.Inv()
    ensures r.None? <==> NoFreePage(old(h.descs))
    ensures r.None? ==> h.V() == old(h.V())
    ensures r.Some? ==> r.value < h.nPages && old(h.descs)[r.value].generation == Free
    ensures r.Some? ==> h.V() == OpenedPage(old(h.V()), r.value, gen, kind)
    ensures r.Some? ==> Popped(old(h.descs), old(h.freeList), h.freeList, r.value)
  {
    hide MemoryOk, RegionsOk, CellZeroIfUnused, IsObj, Starts, GeoOk, WellPaired, PagesOk, CardsClean, Popped;
    var found := PopFree(h);
    if found.None? {
      NoneLeft(h.descs, h.committed, old(h.freeList), h.highWater);
      return None;
    }
    var p := found.value;
    ghost var was := old(h.V());
    OpenedTables(was.descs, h.committed, old(h.freeList), h.freeList, h.highWater, h.cards[..], p, gen, kind);
    if p + 1 > h.highWater {
      h.highWater := p + 1;
    }
    CommitAndClear(h, p, gen, kind);
    OpenedOk(was, old(h.committed), p, gen, kind);
    OpenedRegions(was.descs, h.regions, p, FreshDesc(gen, kind));
    return Some(p);
  }

  lemma NoneLeft(descs: seq<PageDesc>, committed: seq<bool>, before: seq<nat>, highWater: nat)
    requires |descs| == |committed| && PagesOk(descs, committed, before, highWater) && NoFreePage(descs)
    ensures PagesOk(descs, committed, [], highWater)
  {
  }

  lemma OpenedTables(descs: seq<PageDesc>, committed: seq<bool>, before: seq<nat>, after: seq<nat>, highWater: nat,
                     cards: seq<bool>, p: nat, gen: Generation, kind: PageKind)
    requires |descs| == |committed| && PagesOk(descs, committed, before, highWater) && CardsClean(cards, highWater)
    requires p < |descs| && descs[p].generation == Free && HasRegion(gen, kind)
    requires forall i | 0 <= i < |after| :: after[i] < |descs|
    requires forall q | 0 <= q < |descs| && descs[q].generation == Free && q != p :: q in after
    ensures var more := if p + 1 > highWater then p + 1 else highWater;
      PagesOk(descs[p := FreshDesc(gen, kind)], committed[p := true], after, more) && CardsClean(cards, more)
  {
  }

  /** Commits page `p`, hands it to (gen, kind), clears its stale starts and
      zeroes it unless it is known to be zero. */
  method CommitAndClear(h: PageHeap, p: nat, gen: Generation, kind: PageKind)
    requires h.Valid() && MemoryOk(h.V(), h.committed) && p < h.nPages && h.descs[p].generation == Free
    modifies h`descs, h`committed, h.cells, h.startTable.bits
    ensures h.Valid()
    ensures h.committed == old(h.committed)[p := true]
    ensures h.V() == OpenedPage(old(h.V()), p, gen, kind)
  {
    hide MemoryOk, CellZeroIfUnused, IsObj, Starts, GeoOk, WellPaired;
    ghost var was := h.V();
    var freshlyZeroed := h.CommitPage(p);
    var alreadyZero := freshlyZeroed || h.descs[p].zeroed;
    h.descs := h.descs[p := FreshDesc(gen, kind)];
    h.ClearPageStarts(p);
    if !alreadyZero {
      h.ZeroPage(p);
    } else if !freshlyZeroed {
      AlreadyZero(was, old(h.committed), p);
    }
    assert h.cells[..] == ClearedOn(was.cells, p, 0);
  }

  lemma AlreadyZero(v: View, committed: seq<bool>, p: nat)
    requires MemoryOk(v, committed) && p < |v.descs|
    requires v.descs[p].generation == Free && v.descs[p].zeroed && committed[p]
    ensures ClearedOn(v.cells, p, 0) == v.cells
  {
    forall c | 0 <= c < |v.cells| && c / PAGE_CELLS == p ensures v.cells[c] == 0 {
      assert CellZeroIfUnused(v, committed, c);
    }
  }

  lemma OpenedRegions(descs: seq<PageDesc>, regions: seq<AllocRegion>, p: nat, d: PageDesc)
    requires |regions| == 6 && RegionsOk(descs, regions) && p < |descs| && descs[p].generation == Free
    ensures RegionsOk(descs[p := d], regions)
  {
    forall i | 0 <= i < 6 && regions[i].currentPage.Some?
      ensures RegionOk(descs[p := d], regions[i], RegionGen(i), RegionKind(i))
    {
      assert RegionOk(descs, regions[i], RegionGen(i), RegionKind(i));
    }
  }

  lemma OpenedOk(v: View, committed: seq<bool>, p: nat, gen: Generation, kind: PageKind)
    requires MemoryOk(v, committed) && p < |v.descs| && v.descs[p].generation == Free && HasRegion(gen, kind)
    ensures MemoryOk(OpenedPage(v, p, gen, kind), committed[p := true])
  {
    var w := OpenedPage(v, p, gen, kind);
    var committed' := committed[p := true];
    forall c | 0 <= c < |w.cells| ensures CellZeroIfUnused(w, committed', c) {
      assert CellZeroIfUnused(v, committed, c);
    }
    forall c | 0 <= c < |w.starts| && IsObj(w, c)
      ensures c % PAGE_CELLS < w.descs[c / PAGE_CELLS].wordsUsed
              && (w.descs[c / PAGE_CELLS].kind == Cons ==> w.starts[c] == ConsStart)
    {
      assert c / PAGE_CELLS != p;
      assert IsObj(v, c);
    }
  }

  // -- Bump allocation ------------------------------------------------------

  /** `try_bump_in_current`: `None` exactly when the region has no page with room. */
  method TryBumpInCurrent(h: PageHeap, gen: Generation, kind: PageKind, n: nat, isCons: bool) returns (r: Option<nat>)
    requires h.Inv() && HasRegion(gen, kind) && n >= 1 && (kind == Cons ==> isCons)
    modifies h`descs, h`regions, h`bytesAlloc, h.startTable.bits
    ensures h.Inv()
    ensures r.None? <==> (h.regions[RegionIndex(gen, kind)].currentPage.None?
                          || old(h.regions)[RegionIndex(gen, kind)].offset + n > PAGE_CELLS)
    ensures r.None? ==> h.V() == old(h.V()) && h.regions == old(h.regions)
    ensures r.Some? ==>
              BumpedAt(old(h.V()), old(h.V()), h.V(), gen, kind, r.value, n, if isCons then ConsStart else HeaderStart)
    ensures r.Some? ==> old(h.regions)[RegionIndex(gen, kind)].currentPage == Some(r.value / PAGE_CELLS)
    ensures r.Some? ==> h.regions == old(h.regions)[RegionIndex(gen, kind) :=
                          AllocRegion(Some(r.value / PAGE_CELLS), r.value % PAGE_CELLS + n)]
    ensures h.bytesAlloc == old(h.bytesAlloc) + if r.Some? then 8 * n else 0
  {
    hide MemoryOk, CellZeroIfUnused, IsObj, RegionsOk, Starts, GeoOk, WellPaired, PagesOk, Started, Charged;
    var i := RegionIndex(gen, kind);
    if h.regions[i].currentPage.Some? { OpenRegion(h.descs, h.regions, i); }
    var region := h.regions[i];
    if region.currentPage.None? || region.offset + n > PAGE_CELLS {
      return None;
    }
    var p := region.currentPage.value;
    var c := PAGE_CELLS * p + region.offset;
    assert c / PAGE_CELLS == p && c % PAGE_CELLS == region.offset;
    h.regions := h.regions[i := region.(offset := region.offset + n)];
    h.descs := h.descs[p := h.descs[p].(wordsUsed := h.descs[p].wordsUsed + n)];
    if isCons {
      h.startTable.SetConsStart(c);
    } else {
      h.startTable.SetStart(c);
    }
    h.bytesAlloc := h.bytesAlloc + 8 * n;
    ghost var v := old(h.V());
    ghost var st := if isCons then ConsStart else HeaderStart;
    NoStartAtFill(v, h.committed, c);
    BumpView(v, c, n, st, h.V());
    PagesBumped(old(h.descs), h.committed, h.freeList, h.highWater, p, n);
    BumpOk(v, h.committed, gen, kind, c, n, st);
    RegionsKept(old(h.descs), old(h.regions), i, p, n);
    return Some(c);
  }

  lemma BumpView(v: View, c: nat, n: nat, st: Start, w: View)
    requires c < |v.starts| && c / PAGE_CELLS < |v.descs| && v.descs[c / PAGE_CELLS].wordsUsed == c % PAGE_CELLS
    requires w.cells == v.cells && w.starts == v.starts[c := st]
    requires w.descs ==
        v.descs[c / PAGE_CELLS := v.descs[c / PAGE_CELLS].(wordsUsed := v.descs[c / PAGE_CELLS].wordsUsed + n)]
    ensures w == Started(Charged(v, c, n), c, st)
  {
  }

  lemma PagesBumped(descs: seq<PageDesc>, committed: seq<bool>, freeList: seq<nat>, highWater: nat, p: nat, n: nat)
    requires |descs| == |committed| && PagesOk(descs, committed, freeList, highWater)
    requires p < |descs| && descs[p].generation != Free && descs[p].wordsUsed + n <= PAGE_CELLS
    ensures PagesOk(descs[p := descs[p].(wordsUsed := descs[p].wordsUsed + n)], committed, freeList, highWater)
  {
  }

  lemma OpenRegion(descs: seq<PageDesc>, regions: seq<AllocRegion>, i: nat)
    requires |regions| == 6 && RegionsOk(descs, regions) && i < 6 && regions[i].currentPage.Some?
    ensures RegionOk(descs, regions[i], RegionGen(i), RegionKind(i))
  {
  }

  lemma NoStartAtFill(v: View, committed: seq<bool>, c: nat)
    requires MemoryOk(v, committed) && c < |v.starts|
    requires v.descs[c / PAGE_CELLS].generation != Free && v.descs[c / PAGE_CELLS].wordsUsed <= c % PAGE_CELLS
    ensures v.starts[c] == NoStart
  {
    assert !IsObj(v, c);
  }

  /** The block `[c, c+n)` was carved from `mid`'s room and started with `st`. */
  ghost predicate BumpedAt(v: View, mid: View, w: View, gen: Generation, kind: PageKind, c: nat, n: nat, st: Start) {
    && RoomAt(v, mid, gen, kind, c, n)
    && c < |mid.starts| && c / PAGE_CELLS < |mid.descs|
    && mid.starts[c] == NoStart
    && w == Started(Charged(mid, c, n), c, st)
  }

  lemma BumpOk(v: View, committed: seq<bool>, gen: Generation, kind: PageKind, c: nat, n: nat, st: Start)
    requires MemoryOk(v, committed) && RoomAt(v, v, gen, kind, c, n) && HasRegion(gen, kind)
    requires st != NoStart && (kind == Cons ==> st == ConsStart)
    ensures MemoryOk(Started(Charged(v, c, n), c, st), committed)
  {
    var w := Started(Charged(v, c, n), c, st);
    forall x | 0 <= x < |w.cells| ensures CellZeroIfUnused(w, committed, x) {
      assert CellZeroIfUnused(v, committed, x);
    }
    forall x | 0 <= x < |w.starts| && IsObj(w, x)
      ensures x % PAGE_CELLS < w.descs[x / PAGE_CELLS].wordsUsed
              && (w.descs[x / PAGE_CELLS].kind == Cons ==> w.starts[x] == ConsStart)
    {
      assert x != c ==> IsObj(v, x);
    }
  }

  /** Two regions never share a page, so bumping one leaves the others in step. */
  lemma RegionsKept(descs: seq<PageDesc>, regions: seq<AllocRegion>, i: nat, p: nat, n: nat)
    requires |regions| == 6 && RegionsOk(descs, regions) && i < 6 && regions[i].currentPage == Some(p)
    ensures p < |descs|
    ensures RegionsOk(descs[p := descs[p].(wordsUsed := descs[p].wordsUsed + n)],
                      regions[i := regions[i].(offset := regions[i].offset + n)])
  {
    assert RegionOk(descs, regions[i], RegionGen(i), RegionKind(i));
    forall j | 0 <= j < 6 && j != i && regions[j].currentPage.Some?
      ensures regions[j].currentPage.value != p && RegionOk(descs, regions[j], RegionGen(j), RegionKind(j))
    {
      assert RegionOk(descs, regions[j], RegionGen(j), RegionKind(j));
      assert RegionGen(j) != RegionGen(i) || RegionKind(j) != RegionKind(i);
    }
  }

  /** Opens a fresh page for (gen, kind) and bumps in it. */
  method OpenAndBump(h: PageHeap, gen: Generation, kind: PageKind, n: nat, isCons: bool)
    returns (r: Option<nat>, ghost mid: View)
    requires h.Inv() && HasRegion(gen, kind) && 1 <= n <= PAGE_CELLS && (kind == Cons ==> isCons)
    modifies h`descs, h`regions, h`bytesAlloc, h`committed, h`freeList, h`highWater, h.cells, h.startTable.bits
    ensures h.Inv()
    ensures r.None? <==> NoFreePage(old(h.descs))
    ensures r.None? ==> h.V() == old(h.V()) && h.regions == old(h.regions)
    ensures h.bytesAlloc == old(h.bytesAlloc) + if r.Some? then 8 * n else 0
    ensures r.Some? ==>
              BumpedAt(old(h.V()), mid, h.V(), gen, kind, r.value, n, if isCons then ConsStart else HeaderStart)
    ensures r.Some? ==> h.regions == old(h.regions)[RegionIndex(gen, kind) :=
                          AllocRegion(Some(r.value / PAGE_CELLS), r.value % PAGE_CELLS + n)]
    ensures r.Some? ==>
              mid != old(h.V()) && old(h.regions)[RegionIndex(gen, kind)].currentPage != Some(r.value / PAGE_CELLS)
    ensures r.Some? ==> Popped(old(h.descs), old(h.freeList), h.freeList, r.value / PAGE_CELLS)
  {
    hide MemoryOk, PagesOk, CellZeroIfUnused, IsObj, Starts, GeoOk, WellPaired, RegionsOk, CountGen, Popped;
    mid := h.V();
    var page := AcquireFreePage(h, gen, kind);
    if page.None? {
      return None, mid;
    }
    mid := h.V();
    RegionMoved(h.descs, h.regions, RegionIndex(gen, kind), page.value);
    h.regions := h.regions[RegionIndex(gen, kind) := AllocRegion(page, 0)];
    r := TryBumpInCurrent(h, gen, kind, n, isCons);
    NotARegionPage(old(h.descs), old(h.regions), RegionIndex(gen, kind), page.value);
  }

  /** The cells left in the open page of (gen, kind). */
  function RoomLeft(regions: seq<AllocRegion>, gen: Generation, kind: PageKind): nat
    requires HasRegion(gen, kind) && |regions| == 6
  {
    var r := regions[RegionIndex(gen, kind)];
    if r.currentPage.Some? && r.offset <= PAGE_CELLS then PAGE_CELLS - r.offset else 0
  }

  /** Where the next `n` cells of (gen, kind) are to be had: behind what the open page holds, or at
      the start of a page that is Free. */
  predicate NextRoom(descs: seq<PageDesc>, regions: seq<AllocRegion>, gen: Generation, kind: PageKind, n: nat, c: nat)
    requires HasRegion(gen, kind) && |regions| == 6
  {
    var r := regions[RegionIndex(gen, kind)];
    c / PAGE_CELLS < |descs|
    && if RoomLeft(regions, gen, kind) >= n then r.currentPage == Some(c / PAGE_CELLS) && c % PAGE_CELLS == r.offset
       else descs[c / PAGE_CELLS].generation == Free && c % PAGE_CELLS == 0
  }

  lemma RoomIsNext(v: View, regions: seq<AllocRegion>, mid: View, gen: Generation, kind: PageKind, c: nat, n: nat,
                   least: nat)
    requires |regions| == 6 && RegionsOk(v.descs, regions) && HasRegion(gen, kind) && RoomAt(v, mid, gen, kind, c, n)
    requires mid == v <==> RoomLeft(regions, gen, kind) >= least
    requires mid == v ==> regions[RegionIndex(gen, kind)].currentPage == Some(c / PAGE_CELLS)
    ensures NextRoom(v.descs, regions, gen, kind, least, c)
  {
    if mid == v { OpenRegion(v.descs, regions, RegionIndex(gen, kind)); }
  }

  /** G0 has grown, if at all, to no more than `cap` pages. */
  predicate CapKept(before: seq<PageDesc>, after: seq<PageDesc>, cap: nat) {
    CountGen(after, G0) <= CountGen(before, G0) || CountGen(after, G0) <= cap
  }

  /** No page in use has left its generation. */
  predicate InUseKept(before: seq<PageDesc>, after: seq<PageDesc>) {
    && |after| == |before|
    && forall p | 0 <= p < |before| && before[p].generation != Free :: after[p].generation == before[p].generation
  }

  lemma RoomInCap(v: View, mid: View, gen: Generation, kind: PageKind, c: nat, n: nat, cap: nat)
    requires RoomAt(v, mid, gen, kind, c, n) && HasRegion(gen, kind)
    requires mid != v && gen == G0 ==> CountGen(v.descs, G0) < cap
    ensures CapKept(v.descs, Charged(mid, c, n).descs, cap)
  {
    hide CountGen;
    var p := c / PAGE_CELLS;
    if mid != v { CountChange(v.descs, p, FreshDesc(gen, kind), G0); }
    CountChange(mid.descs, p, mid.descs[p].(wordsUsed := c % PAGE_CELLS + n), G0);
  }

  lemma RoomUsesFree(v: View, mid: View, gen: Generation, kind: PageKind, c: nat, n: nat)
    requires RoomAt(v, mid, gen, kind, c, n)
    ensures InUseKept(v.descs, Charged(mid, c, n).descs)
  {
  }

  lemma BumpPlaced(v: View, regions: seq<AllocRegion>, mid: View, w: View, gen: Generation, kind: PageKind, c: nat,
                   n: nat, st: Start, cap: nat)
    requires |regions| == 6 && RegionsOk(v.descs, regions) && HasRegion(gen, kind)
    requires BumpedAt(v, mid, w, gen, kind, c, n, st)
    requires mid == v <==> RoomLeft(regions, gen, kind) >= n
    requires mid == v ==> regions[RegionIndex(gen, kind)].currentPage == Some(c / PAGE_CELLS)
    ensures NextRoom(v.descs, regions, gen, kind, n, c)
    ensures (mid != v && gen == G0 ==> CountGen(v.descs, G0) < cap) ==> CapKept(v.descs, w.descs, cap)
    ensures InUseKept(v.descs, w.descs)
  {
    RoomUsesFree(v, mid, gen, kind, c, n);
    hide RoomAt, NextRoom, CapKept, CountGen, InUseKept;
    RoomIsNext(v, regions, mid, gen, kind, c, n, n);
    if mid != v && gen == G0 ==> CountGen(v.descs, G0) < cap { RoomInCap(v, mid, gen, kind, c, n, cap); }
  }

  /** The nursery has all the pages it may have, and no evacuation of G0 is under way. */
  predicate AtYoungCap(h: PageHeap, gen: Generation)
    reads h`liveTarget, h`descs, h`youngPageCap
  {
    gen == G0 && h.liveTarget != Some(G0) && CountGen(h.descs, G0) >= h.youngPageCap
  }

  /** What refuses `n` cells of (gen, kind): poison, or no room in the open page and no page to be had. */
  ghost predicate Refused(h: PageHeap, gen: Generation, kind: PageKind, n: nat)
    requires HasRegion(gen, kind) && |h.regions| == 6
    reads h`poisoned, h`regions, h`liveTarget, h`descs, h`youngPageCap
  {
    h.poisoned || (RoomLeft(h.regions, gen, kind) < n && (AtYoungCap(h, gen) || NoFreePage(h.descs)))
  }

  /** `try_alloc_in_region` under the heap's own rules: refuse when poisoned, bump
      in the open page if it fits, else open a fresh page unless the nursery is at
      its cap and no evacuation of G0 is under way. A heap that a failed collection has
      poisoned may be in any state. */
  method TryAllocInRegion(h: PageHeap, gen: Generation, kind: PageKind, n: nat, isCons: bool)
    returns (r: Option<nat>, ghost mid: View)
    requires h.Valid() && (h.poisoned || h.Inv())
    requires HasRegion(gen, kind) && 1 <= n <= PAGE_CELLS && (kind == Cons ==> isCons)
    modifies h`descs, h`regions, h`bytesAlloc, h`committed, h`freeList, h`highWater, h.cells, h.startTable.bits
    ensures h.Valid() && (old(h.Inv()) ==> h.Inv())
    ensures r.None? <==> old(Refused(h, gen, kind, n))
    ensures r.None? ==> h.V() == old(h.V()) && h.regions == old(h.regions)
    ensures h.bytesAlloc == old(h.bytesAlloc) + if r.Some? then 8 * n else 0
    ensures r.Some? ==>
              BumpedAt(old(h.V()), mid, h.V(), gen, kind, r.value, n, if isCons then ConsStart else HeaderStart)
    ensures r.Some? ==> h.regions == old(h.regions)[RegionIndex(gen, kind) :=
                          AllocRegion(Some(r.value / PAGE_CELLS), r.value % PAGE_CELLS + n)]
    ensures r.Some? ==> (mid == old(h.V()) <==>
                          old(h.regions)[RegionIndex(gen, kind)].currentPage == Some(r.value / PAGE_CELLS))
    ensures r.Some? ==> (mid == old(h.V()) <==> RoomLeft(old(h.regions), gen, kind) >= n)
    ensures r.Some? ==> (mid == old(h.V()) ==> h.freeList == old(h.freeList))
    ensures r.Some? ==> (mid != old(h.V()) ==> Popped(old(h.descs), old(h.freeList), h.freeList, r.value / PAGE_CELLS))
    ensures r.Some? ==> NextRoom(old(h.descs), old(h.regions), gen, kind, n, r.value)
    ensures h.liveTarget != Some(G0) ==> CapKept(old(h.descs), h.descs, h.youngPageCap)
    ensures InUseKept(old(h.descs), h.descs)
  {
    hide MemoryOk, PagesOk, CellZeroIfUnused, IsObj, Starts, GeoOk, WellPaired, RegionsOk, CountGen, Popped, RoomAt,
      NextRoom;
    mid := h.V();
    if h.poisoned {
      return None, mid;
    }
    r := TryBumpInCurrent(h, gen, kind, n, isCons);
    if r.Some? {
      BumpPlaced(mid, old(h.regions), mid, h.V(), gen, kind, r.value, n, if isCons then ConsStart else HeaderStart,
        h.youngPageCap);
      return r, mid;
    }
    if gen == G0 && h.liveTarget != Some(G0) && CountGen(h.descs, G0) >= h.youngPageCap {
      return None, mid;
    }
    r, mid := OpenAndBump(h, gen, kind, n, isCons);
    if r.Some? {
      BumpPlaced(old(h.V()), old(h.regions), mid, h.V(), gen, kind, r.value, n,
        if isCons then ConsStart else HeaderStart, h.youngPageCap);
    }
  }

  /** A region may be moved to an empty page of its own generation and kind. */
  lemma RegionMoved(descs: seq<PageDesc>, regions: seq<AllocRegion>, i: nat, p: nat)
    requires |regions| == 6 && RegionsOk(descs, regions) && i < 6
    requires p < |descs| && descs[p] == FreshDesc(RegionGen(i), RegionKind(i))
    ensures RegionsOk(descs, regions[i := AllocRegion(Some(p), 0)])
  {
    forall j | 0 <= j < 6 && j != i && regions[j].currentPage.Some?
      ensures RegionOk(descs, regions[j], RegionGen(j), RegionKind(j))
    {
    }
  }

  lemma NotARegionPage(descs: seq<PageDesc>, regions: seq<AllocRegion>, i: nat, p: nat)
    requires |regions| == 6 && RegionsOk(descs, regions) && i < 6
    requires p < |descs| && descs[p].generation == Free
    ensures regions[i].currentPage != Some(p)
  {
    if regions[i].currentPage == Some(p) { OpenRegion(descs, regions, i); }
  }
}
