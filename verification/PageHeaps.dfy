/** The page heap: cell memory, side tables, page table and collector state. */
module PageHeaps {
  import opened Bits
  import opened Options
  import opened Bitmaps
  import opened Layouts
  import opened Pages
  import opened Objects

  /** The open page of one (generation, kind) pair and the bump offset in it. */
  datatype AllocRegion = AllocRegion(currentPage: Option<nat>, offset: nat)

  const EMPTY_REGION: AllocRegion := AllocRegion(None, 0)

  predicate HasRegion(gen: Generation, kind: PageKind) {
    gen != Free && (kind == Cons || kind == Boxed)
  }

  /** `region_index`: the slot of (generation, kind) in the region table. */
  function RegionIndex(gen: Generation, kind: PageKind): (i: nat)
    requires HasRegion(gen, kind)
    ensures i < 6
    ensures RegionGen(i) == gen && RegionKind(i) == kind
  {
    2 * (match gen case G0 => 0 case G1 => 1 case Tenured => 2) + (if kind == Cons then 0 else 1)
  }

  function RegionGen(i: nat): Generation { if i < 2 then G0 else if i < 4 then G1 else Tenured }

  function RegionKind(i: nat): PageKind { if i % 2 == 0 then Cons else Boxed }

  class PageHeap {
    const layout: HeapLayout
    const base: nat
    const nPages: nat
    const cells: array<u64>
    const startTable: StartTable
    const markTable: MarkBitmap
    const cards: array<bool>
    var descs: seq<PageDesc>
    var committed: seq<bool>
    var freeList: seq<nat>
    var highWater: nat
    var regions: seq<AllocRegion>
    var pinnedCells: set<nat>
    var explicitPins: map<nat, nat>
    var liveCounts: seq<nat>
    var liveTarget: Option<Generation>
    var youngPageCap: nat
    var poisoned: bool
    var bytesAlloc: nat
    var minorsSinceG0Promote: nat
    var g0PromotesSinceG1Promote: nat

    function Geo(): Geometry { Geometry(layout, base, nPages) }

    ghost function V(): View
      reads this`descs, cells, startTable.bits
    {
      View(cells[..], startTable.Map(), descs)
    }

    /** Table sizes, and the side tables being distinct pieces of memory. */
    ghost predicate Valid()
      reads this, startTable.bits
    {
      && GeoOk(Geo())
      && cells.Length == PAGE_CELLS * nPages
      && startTable.bits.Length == STARTS_WORDS_PER_PAGE * nPages
      && markTable.bits.Length == MARK_WORDS_PER_PAGE * nPages
      && cards.Length == CARDS_PER_PAGE * nPages
      && |descs| == |committed| == |liveCounts| == nPages
      && |regions| == 6
      && cells != startTable.bits && cells != markTable.bits && startTable.bits != markTable.bits
      && startTable.Valid()
    }

    /** The page-table invariant. Every Free page is on the free list (stale and
        duplicate entries are allowed), pages at or above the high-water mark are
        Free, a page released as zeroed is zero, an open region's page has its
        generation and kind and is filled up to the region's offset, starts lie
        below the fill level and the cells at or above it are zero. Above the
        high-water mark no card is dirty. */
    ghost predicate Inv()
      reads this, cells, startTable.bits, cards
    {
      && Valid()
      && PagesOk(descs, committed, freeList, highWater)
      && RegionsOk(descs, regions)
      && MemoryOk(V(), committed)
      && CardsClean(cards[..], highWater)
    }

    /** The reservation, every page Free. Memory is not committed yet. */
    constructor (layout: HeapLayout, base: nat, nPages: nat)
      requires GeoOk(Geometry(layout, base, nPages))
      ensures Inv() && this.layout == layout && this.base == base && this.nPages == nPages
      ensures fresh(cells) && fresh(startTable.bits) && fresh(markTable.bits) && fresh(cards)
      ensures AllObjs(V()) == {} && pinnedCells == {} && explicitPins == map[] && liveTarget == None
      ensures minorsSinceG0Promote == 0 && g0PromotesSinceG1Promote == 0 && !poisoned && bytesAlloc == 0
      ensures highWater == 0 && youngPageCap == nPages && regions == seq(6, _ => EMPTY_REGION)
      ensures |freeList| == nPages && forall i | 0 <= i < nPages :: freeList[i] == nPages - 1 - i
      ensures forall p | 0 <= p < nPages :: !committed[p] && liveCounts[p] == 0
      ensures forall p | 0 <= p < nPages :: descs[p] == FREE_DESC
      ensures forall k | 0 <= k < cards.Length :: !cards[k]
    {
      hide Starts, WellPaired, GeoOk, MemoryOk, AllObjs;
      this.layout, this.base, this.nPages := layout, base, nPages;
      cells := new u64[PAGE_CELLS * nPages](_ => 0);
      startTable := new StartTable(nPages);
      markTable := new MarkBitmap(nPages);
      cards := new bool[CARDS_PER_PAGE * nPages](_ => false);
      descs := seq(nPages, _ => FREE_DESC);
      committed := seq(nPages, _ => false);
      freeList := seq(nPages, i requires 0 <= i < nPages => nPages - 1 - i);
      highWater := 0;
      regions := seq(6, _ => EMPTY_REGION);
      pinnedCells, explicitPins := {}, map[];
      liveCounts, liveTarget := seq(nPages, _ => 0), None;
      youngPageCap, poisoned, bytesAlloc := nPages, false, 0;
      minorsSinceG0Promote, g0PromotesSinceG1Promote := 0, 0;
      new;
      NothingThere(V(), committed);
      forall p | 0 <= p < nPages ensures p in freeList {
        assert freeList[nPages - 1 - p] == p;
      }
    }

    // -- Words and cells ----------------------------------------------------

    /** `page_of`: the page containing an address, if it is in the reservation. */
    function PageOf(addr: nat): (r: Option<nat>)
      ensures r.Some? ==> r.value < nPages && r.value == (addr - base) / 8 / PAGE_CELLS
      ensures r.Some? <==> base <= addr < base + PAGE_BYTES * nPages
    {
      if base <= addr < base + PAGE_BYTES * nPages then
        assert (addr - base) / PAGE_BYTES == (addr - base) / 8 / PAGE_CELLS;
        Some((addr - base) / PAGE_BYTES)
      else None
    }

    method WriteCell(c: nat, w: u64)
      requires Valid() && c < cells.Length
      modifies cells
      ensures V() == old(V()).(cells := old(V()).cells[c := w])
    {
      cells[c] := w;
      assert cells[..] == old(cells[..])[c := w];
    }

    /** `zero_whole_page`. */
    method ZeroPage(p: nat)
      requires Valid() && p < nPages
      modifies cells
      ensures V() == old(V()).(cells := ClearedOn(old(V()).cells, p, 0))
    {
      for c := PAGE_CELLS * p to PAGE_CELLS * (p + 1)
        invariant forall i | 0 <= i < cells.Length ::
          cells[i] == if PAGE_CELLS * p <= i < c then 0 else old(cells[i])
      {
        cells[c] := 0;
      }
      assert cells[..] == ClearedOn(old(cells[..]), p, 0);
    }

    method ClearPageStarts(p: nat)
      requires Valid() && p < nPages
      modifies startTable.bits
      ensures Valid()
      ensures V() == old(V()).(starts := ClearedOn(old(V()).starts, p, NoStart))
    {
      startTable.ClearPage(p);
    }

    /** `commit_page`: true if this call committed the page, whose memory the
        operating system then hands over zero-filled. */
    method CommitPage(p: nat) returns (freshlyZeroed: bool)
      requires Valid() && p < nPages
      modifies cells, this`committed
      ensures freshlyZeroed == !old(committed)[p]
      ensures committed == old(committed)[p := true]
      ensures V() == if freshlyZeroed then old(V()).(cells := ClearedOn(old(V()).cells, p, 0)) else old(V())
    {
      freshlyZeroed := !committed[p];
      if freshlyZeroed {
        committed := committed[p := true];
        ZeroPage(p);
      } else {
        assert committed == old(committed)[p := true];
      }
    }

    /** `CardTable::mark_offset` on the card of cell `c`. */
    method MarkCard(c: nat)
      requires Valid() && c < cells.Length
      modifies cards
      ensures cards[..] == old(cards[..])[c / CARD_CELLS := true]
    {
      cards[c / CARD_CELLS] := true;
    }
  }

  ghost predicate PagesOk(descs: seq<PageDesc>, committed: seq<bool>, freeList: seq<nat>, highWater: nat)
    requires |descs| == |committed|
  {
    && (forall p | 0 <= p < |descs| && descs[p].generation == Free ::
          p in freeList && descs[p].kind == Unassigned && descs[p].wordsUsed == 0)
    && (forall p | 0 <= p < |descs| && descs[p].generation != Free ::
          p < highWater && committed[p] && descs[p].kind != Unassigned && descs[p].wordsUsed <= PAGE_CELLS)
    && (forall i | 0 <= i < |freeList| :: freeList[i] < |descs|)
    && highWater <= |descs|
  }

  /** No card of a page at or above the high-water mark is dirty. */
  ghost predicate CardsClean(cards: seq<bool>, highWater: nat) {
    forall k | CARDS_PER_PAGE * highWater <= k < |cards| :: !cards[k]
  }

  ghost predicate RegionsOk(descs: seq<PageDesc>, regions: seq<AllocRegion>)
    requires |regions| == 6
  {
    forall i | 0 <= i < 6 && regions[i].currentPage.Some? :: RegionOk(descs, regions[i], RegionGen(i), RegionKind(i))
  }

  predicate RegionOk(descs: seq<PageDesc>, r: AllocRegion, gen: Generation, kind: PageKind)
    requires r.currentPage.Some?
  {
    var p := r.currentPage.value;
    && p < |descs|
    && descs[p].generation == gen && descs[p].kind == kind && descs[p].wordsUsed == r.offset
  }

  ghost predicate MemoryOk(v: View, committed: seq<bool>) {
    && |v.cells| == |v.starts| == PAGE_CELLS * |v.descs| && |committed| == |v.descs|
    && (forall c | 0 <= c < |v.starts| && IsObj(v, c) ::
          c % PAGE_CELLS < v.descs[c / PAGE_CELLS].wordsUsed
          && (v.descs[c / PAGE_CELLS].kind == Cons ==> v.starts[c] == ConsStart))
    && (forall c | 0 <= c < |v.cells| :: CellZeroIfUnused(v, committed, c))
  }

  lemma NothingThere(v: View, committed: seq<bool>)
    requires |v.cells| == |v.starts| == PAGE_CELLS * |v.descs| && |committed| == |v.descs|
    requires forall c | 0 <= c < |v.starts| :: v.starts[c] == NoStart
    requires forall p | 0 <= p < |v.descs| :: !committed[p]
    requires forall p | 0 <= p < |v.descs| :: v.descs[p] == FREE_DESC
    ensures MemoryOk(v, committed) && AllObjs(v) == {}
  {
  }

  /** Cells above the fill level of a small-object page, and the cells of a Free
      page released as zeroed, are zero. */
  predicate CellZeroIfUnused(v: View, committed: seq<bool>, c: nat)
    requires |v.cells| == PAGE_CELLS * |v.descs| && |committed| == |v.descs| && c < |v.cells|
  {
    var d := v.descs[c / PAGE_CELLS];
    && (d.generation == Free && d.zeroed && committed[c / PAGE_CELLS] ==> v.cells[c] == 0)
    && (d.generation != Free && d.kind != Large && c % PAGE_CELLS >= d.wordsUsed ==> v.cells[c] == 0)
  }
}
