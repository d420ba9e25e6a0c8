/** Thread-local allocation: slabs carved under the heap lock, bumped without it. */
module Tlabs {
  import opened Bits
  import opened Options
  import opened Bitmaps
  import opened Pages
  import opened Objects
  import opened PageHeaps
  import opened Alloc

  const INITIAL_TLAB_CELLS: nat := 512
  const MAX_TLAB_CELLS: nat := 8192

  /** The unused part `[cursor, end)` of a slab; empty when the two meet. */
  datatype Tlab = Tlab(cursor: nat, end: nat, nextRefill: nat)
  {
    function Room(): nat { if cursor <= end then end - cursor else 0 }
  }

  const EMPTY_TLAB: Tlab := Tlab(0, 0, INITIAL_TLAB_CELLS)

  /** An allocated object: its first cell, its cells, and the start recorded for it. */
  datatype Block = Block(c: nat, n: nat, st: Start)

  // -- Carving slabs --------------------------------------------------------

  /** The slab `[c, c + n)` was carved from `mid`'s room. */
  ghost predicate SlabAt(v: View, mid: View, w: View, gen: Generation, kind: PageKind, c: nat, n: nat) {
    RoomAt(v, mid, gen, kind, c, n) && w == Charged(mid, c, n)
  }

  lemma ChargeOk(v: View, committed: seq<bool>, gen: Generation, kind: PageKind, c: nat, n: nat)
    requires MemoryOk(v, committed) && RoomAt(v, v, gen, kind, c, n)
    ensures MemoryOk(Charged(v, c, n), committed)
  {
    var w := Charged(v, c, n);
    forall x | 0 <= x < |w.cells| ensures CellZeroIfUnused(w, committed, x) {
      assert CellZeroIfUnused(v, committed, x);
    }
    forall x | 0 <= x < |w.starts| && IsObj(w, x)
      ensures x % PAGE_CELLS < w.descs[x / PAGE_CELLS].wordsUsed
              && (w.descs[x / PAGE_CELLS].kind == Cons ==> w.starts[x] == ConsStart)
    {
      assert IsObj(v, x);
    }
  }

  lemma ChargeView(v: View, c: nat, n: nat, w: View)
    requires c / PAGE_CELLS < |v.descs| && v.descs[c / PAGE_CELLS].wordsUsed == c % PAGE_CELLS
    requires w.cells == v.cells && w.starts == v.starts
    requires w.descs ==
        v.descs[c / PAGE_CELLS := v.descs[c / PAGE_CELLS].(wordsUsed := v.descs[c / PAGE_CELLS].wordsUsed + n)]
    ensures w == Charged(v, c, n)
  {
  }

  /** `carve_tlab_in_current`: up to `want` cells, capped at the room left in the open page. */
  method CarveTlabInCurrent(h: PageHeap, gen: Generation, kind: PageKind, want: nat) returns (r: Option<(nat, nat)>)
    requires h.Inv() && HasRegion(gen, kind) && want >= 1
    modifies h`descs, h`regions
    ensures h.Inv()
    ensures r.None? <==> RoomLeft(old(h.regions), gen, kind) == 0
    ensures r.None? ==> h.V() == old(h.V()) && h.regions == old(h.regions)
    ensures r.Some? ==> SlabAt(old(h.V()), old(h.V()), h.V(), gen, kind, r.value.0, r.value.1)
    ensures r.Some? ==> old(h.regions)[RegionIndex(gen, kind)].currentPage == Some(r.value.0 / PAGE_CELLS)
    ensures r.Some? ==> var room := RoomLeft(old(h.regions), gen, kind);
              r.value.1 == if want <= room then want else room
    ensures r.Some? ==> h.regions == old(h.regions)[RegionIndex(gen, kind) :=
                          AllocRegion(Some(r.value.0 / PAGE_CELLS), r.value.0 % PAGE_CELLS + r.value.1)]
  {
    hide MemoryOk, CellZeroIfUnused, IsObj, RegionsOk, Starts, GeoOk, WellPaired, PagesOk, Charged;
    var i := RegionIndex(gen, kind);
    if h.regions[i].currentPage.Some? { OpenRegion(h.descs, h.regions, i); }
    var region := h.regions[i];
    if region.currentPage.None? || region.offset >= PAGE_CELLS { return None; }
    var slab := if want <= PAGE_CELLS - region.offset then want else PAGE_CELLS - region.offset;
    var p := region.currentPage.value;
    var c := PAGE_CELLS * p + region.offset;
    assert c / PAGE_CELLS == p && c % PAGE_CELLS == region.offset;
    ghost var v := h.V();
    h.regions := h.regions[i := region.(offset := region.offset + slab)];
    h.descs := h.descs[p := h.descs[p].(wordsUsed := h.descs[p].wordsUsed + slab)];
    ChargeView(v, c, slab, h.V());
    PagesBumped(v.descs, h.committed, h.freeList, h.highWater, p, slab);
    ChargeOk(v, h.committed, gen, kind, c, slab);
    RegionsKept(v.descs, old(h.regions), i, p, slab);
    return Some((c, slab));
  }

  /** The least a slab may be, and what is asked for beyond that. */
  function Least(minCells: nat): nat { if minCells >= 1 then minCells else 1 }

  function Wanted(minCells: nat, wantCells: nat): nat {
    if wantCells < Least(minCells) then Least(minCells) else if wantCells > PAGE_CELLS then PAGE_CELLS else wantCells
  }

  /** How many cells a slab gets: what is asked for, but of an open page with room for the least of it no more than
      there is. */
  function SlabCells(room: nat, minCells: nat, wantCells: nat): nat {
    if Least(minCells) <= room < Wanted(minCells, wantCells) then room else Wanted(minCells, wantCells)
  }

  /** `reserve_tlab`: a slab of at least `minCells` on one page, or `None` when the heap is
      poisoned, full, or the nursery at its cap. A heap that a failed collection has poisoned may
      be in any state. */
  method ReserveTlab(h: PageHeap, gen: Generation, kind: PageKind, minCells: nat, wantCells: nat)
    returns (r: Option<(nat, nat)>, ghost mid: View)
    requires h.Valid() && (h.poisoned || h.Inv()) && HasRegion(gen, kind) && minCells <= PAGE_CELLS
    modifies h`descs, h`regions, h`committed, h`freeList, h`highWater, h.cells, h.startTable.bits
    ensures h.Valid() && (old(h.Inv()) ==> h.Inv())
    ensures r.None? <==> old(Refused(h, gen, kind, Least(minCells)))
    ensures r.None? ==> h.V() == old(h.V()) && h.regions == old(h.regions)
    ensures r.Some? ==> SlabAt(old(h.V()), mid, h.V(), gen, kind, r.value.0, r.value.1)
    ensures r.Some? ==> r.value.1 == SlabCells(RoomLeft(old(h.regions), gen, kind), minCells, wantCells)
    ensures r.Some? ==> (mid == old(h.V()) <==> RoomLeft(old(h.regions), gen, kind) >= Least(minCells))
    ensures r.Some? ==> NextRoom(old(h.descs), old(h.regions), gen, kind, Least(minCells), r.value.0)
    ensures r.Some? ==> h.regions == old(h.regions)[RegionIndex(gen, kind) :=
                          AllocRegion(Some(r.value.0 / PAGE_CELLS), r.value.0 % PAGE_CELLS + r.value.1)]
    ensures h.liveTarget != Some(G0) ==> CapKept(old(h.descs), h.descs, h.youngPageCap)
    ensures InUseKept(old(h.descs), h.descs)
  {
    hide MemoryOk, PagesOk, CellZeroIfUnused, IsObj, Starts, GeoOk, WellPaired, RegionsOk, CountGen, Charged, RoomAt,
      NextRoom, CapKept, InUseKept, CardsClean, SlabAt;
    mid := h.V();
    CapStart(h.descs, h.youngPageCap);
    if h.poisoned { return None, mid; }
    var lo := if minCells >= 1 then minCells else 1;
    var want := if wantCells < lo then lo else if wantCells > PAGE_CELLS then PAGE_CELLS else wantCells;
    var region := h.regions[RegionIndex(gen, kind)];
    var available := if region.currentPage.Some? && region.offset <= PAGE_CELLS then PAGE_CELLS - region.offset else 0;
    assert available == RoomLeft(h.regions, gen, kind);
    hide RoomLeft;
    if available >= lo {
      r := CarveTlabInCurrent(h, gen, kind, want);
      SlabPlaced(mid, old(h.regions), mid, h.V(), gen, kind, r.value.0, r.value.1, lo, h.youngPageCap);
      return r, mid;
    }
    if gen == G0 && h.liveTarget != Some(G0) && CountGen(h.descs, G0) >= h.youngPageCap { return None, mid; }
    r, mid := CarveFresh(h, gen, kind, want);
    if r.Some? {
      SlabPlaced(old(h.V()), old(h.regions), mid, h.V(), gen, kind, r.value.0, r.value.1, lo, h.youngPageCap);
    }
  }

  lemma SlabPlaced(v: View, regions: seq<AllocRegion>, mid: View, w: View, gen: Generation, kind: PageKind, c: nat,
                   n: nat, least: nat, cap: nat)
    requires |regions| == 6 && RegionsOk(v.descs, regions) && HasRegion(gen, kind)
    requires SlabAt(v, mid, w, gen, kind, c, n)
    requires mid == v <==> RoomLeft(regions, gen, kind) >= least
    requires mid == v ==> regions[RegionIndex(gen, kind)].currentPage == Some(c / PAGE_CELLS)
    ensures NextRoom(v.descs, regions, gen, kind, least, c)
    ensures (mid != v && gen == G0 ==> CountGen(v.descs, G0) < cap) ==> CapKept(v.descs, w.descs, cap)
    ensures InUseKept(v.descs, w.descs)
  {
    RoomUsesFree(v, mid, gen, kind, c, n);
    hide RoomAt, NextRoom, CapKept, CountGen, InUseKept;
    RoomIsNext(v, regions, mid, gen, kind, c, n, least);
    if mid != v && gen == G0 ==> CountGen(v.descs, G0) < cap { RoomInCap(v, mid, gen, kind, c, n, cap); }
  }

  /** A slab on a page opened for it. */
  method CarveFresh(h: PageHeap, gen: Generation, kind: PageKind, want: nat)
    returns (r: Option<(nat, nat)>, ghost mid: View)
    requires h.Inv() && HasRegion(gen, kind) && 1 <= want <= PAGE_CELLS
    modifies h`descs, h`regions, h`committed, h`freeList, h`highWater, h.cells, h.startTable.bits
    ensures h.Inv()
    ensures r.None? <==> NoFreePage(old(h.descs))
    ensures r.None? ==> h.V() == old(h.V()) && h.regions == old(h.regions)
    ensures r.Some? ==> mid != old(h.V())
    ensures r.Some? ==> SlabAt(old(h.V()), mid, h.V(), gen, kind, r.value.0, r.value.1) && r.value.1 == want
    ensures r.Some? ==> h.regions == old(h.regions)[RegionIndex(gen, kind) :=
                          AllocRegion(Some(r.value.0 / PAGE_CELLS), r.value.0 % PAGE_CELLS + r.value.1)]
  {
    hide MemoryOk, PagesOk, CellZeroIfUnused, IsObj, Starts, GeoOk, WellPaired, RegionsOk, CountGen, Charged,
      CardsClean;
    mid := h.V();
    var page := AcquireFreePage(h, gen, kind);
    if page.None? { return None, mid; }
    mid := h.V();
    RegionMoved(h.descs, h.regions, RegionIndex(gen, kind), page.value);
    h.regions := h.regions[RegionIndex(gen, kind) := AllocRegion(page, 0)];
    r := CarveTlabInCurrent(h, gen, kind, want);
    SlabOnOpened(old(h.V()), mid, h.V(), gen, kind, page.value, r);
  }

  lemma SlabOnOpened(v: View, mid: View, w: View, gen: Generation, kind: PageKind, p: nat, r: Option<(nat, nat)>)
    requires |v.starts| == |v.cells| && p < |v.descs| && v.descs[p].generation == Free
    requires mid == OpenedPage(v, p, gen, kind)
    requires r.Some? ==> SlabAt(mid, mid, w, gen, kind, r.value.0, r.value.1) && r.value.0 / PAGE_CELLS == p
    ensures r.Some? ==> SlabAt(v, mid, w, gen, kind, r.value.0, r.value.1)
  {
    hide Charged;
  }

  // -- The system of mutators -----------------------------------------------

  predicate Apart(a: nat, n: nat, b: nat, m: nat) { a + n <= b || b + m <= a }

  /** An object lies on one page, below its fill level, with exactly its first cell marked as a start. */
  ghost predicate BlockOk(v: View, b: Block)
    requires |v.starts| == |v.cells| == PAGE_CELLS * |v.descs|
  {
    && 1 <= b.n && b.st != NoStart && b.c % PAGE_CELLS + b.n <= PAGE_CELLS && b.c / PAGE_CELLS < |v.descs|
    && v.descs[b.c / PAGE_CELLS].generation != Free
    && b.c % PAGE_CELLS + b.n <= v.descs[b.c / PAGE_CELLS].wordsUsed
    && (forall t | b.c <= t < b.c + b.n :: t < |v.starts| && v.starts[t] == if t == b.c then b.st else NoStart)
  }

  /** A slab lies on one page of its generation and kind, below its fill level; its unused
      cells are zero and nothing starts there. */
  ghost predicate TlabOk(v: View, gen: Generation, kind: PageKind, t: Tlab)
    requires |v.starts| == |v.cells| == PAGE_CELLS * |v.descs|
  {
    t.Room() > 0 ==>
      && t.cursor % PAGE_CELLS + t.Room() <= PAGE_CELLS && t.cursor / PAGE_CELLS < |v.descs|
      && v.descs[t.cursor / PAGE_CELLS].generation == gen && v.descs[t.cursor / PAGE_CELLS].kind == kind && gen != Free
      && t.cursor % PAGE_CELLS + t.Room() <= v.descs[t.cursor / PAGE_CELLS].wordsUsed
      && forall x | t.cursor <= x < t.end :: x < |v.starts| && v.starts[x] == NoStart && v.cells[x] == 0
  }

  /** A slot: mutator and region. */
  type Slot = (nat, nat)

  ghost predicate BlocksOk(v: View, objects: set<Block>)
    requires |v.starts| == |v.cells| == PAGE_CELLS * |v.descs|
  {
    forall b | b in objects :: BlockOk(v, b)
  }

  ghost predicate BlocksApart(objects: set<Block>) {
    forall a, b | a in objects && b in objects && a != b :: Apart(a.c, a.n, b.c, b.n)
  }

  ghost predicate TlabsOk(v: View, tlabs: map<Slot, Tlab>)
    requires |v.starts| == |v.cells| == PAGE_CELLS * |v.descs|
  {
    forall s | s in tlabs :: s.1 < 6 && TlabOk(v, RegionGen(s.1), RegionKind(s.1), tlabs[s])
  }

  /** No object reaches into the unused part of `t`. */
  ghost predicate Unused(t: Tlab, objects: set<Block>) {
    t.Room() > 0 ==> forall b | b in objects :: Apart(t.cursor, t.Room(), b.c, b.n)
  }

  ghost predicate TlabsUnused(tlabs: map<Slot, Tlab>, objects: set<Block>) {
    forall s | s in tlabs :: Unused(tlabs[s], objects)
  }

  predicate TlabApart(a: Tlab, b: Tlab) {
    a.Room() > 0 && b.Room() > 0 ==> Apart(a.cursor, a.Room(), b.cursor, b.Room())
  }

  ghost predicate TlabsApart(tlabs: map<Slot, Tlab>) {
    forall s, t | s in tlabs && t in tlabs && s != t :: TlabApart(tlabs[s], tlabs[t])
  }

  ghost predicate StartsOwned(v: View, objects: set<Block>) {
    forall x: nat | x < |v.starts| && IsObj(v, x) :: StartOf(objects, x)
  }

  ghost predicate StartOf(objects: set<Block>, x: nat) { exists b :: b in objects && b.c == x }

  /** All objects and all unused slabs are pairwise disjoint, each in its place, and
      every start bit belongs to an object. */
  ghost predicate SystemOk(v: View, tlabs: map<Slot, Tlab>, objects: set<Block>) {
    && |v.starts| == |v.cells| == PAGE_CELLS * |v.descs|
    && BlocksOk(v, objects) && BlocksApart(objects)
    && TlabsOk(v, tlabs) && TlabsUnused(tlabs, objects) && TlabsApart(tlabs)
    && StartsOwned(v, objects)
  }

  // -- What allocation leaves alone -----------------------------------------

  /** The block holds the words and starts it held. */
  ghost predicate BlockKept(v: View, w: View, b: Block)
    requires |v.starts| == |v.cells| == PAGE_CELLS * |v.descs| && |w.starts| == |w.cells| == PAGE_CELLS * |w.descs|
  {
    forall x | b.c <= x < b.c + b.n ::
      && x < |v.cells| && x < |w.cells| && w.cells[x] == v.cells[x] && w.starts[x] == v.starts[x]
      && w.descs[x / PAGE_CELLS].generation == v.descs[x / PAGE_CELLS].generation
  }

  /** Every object is as it was, and no page has become Large. */
  ghost predicate ObjectsKept(v: View, w: View, objects: set<Block>) {
    && |v.starts| == |v.cells| == PAGE_CELLS * |v.descs| && |w.starts| == |w.cells| == PAGE_CELLS * |w.descs|
    && |w.descs| == |v.descs|
    && (forall b | b in objects :: BlockKept(v, w, b))
    && (forall p | 0 <= p < |w.descs| && w.descs[p].kind == Large :: v.descs[p].kind == Large)
  }

  lemma SameKept(v: View, objects: set<Block>)
    requires |v.starts| == |v.cells| == PAGE_CELLS * |v.descs| && BlocksOk(v, objects)
    ensures ObjectsKept(v, v, objects)
  {
    forall b | b in objects ensures BlockKept(v, v, b) { assert BlockOk(v, b); }
  }

  lemma KeptTrans(v: View, u: View, w: View, objects: set<Block>)
    requires ObjectsKept(v, u, objects) && ObjectsKept(u, w, objects)
    ensures ObjectsKept(v, w, objects)
  {
    forall b | b in objects ensures BlockKept(v, w, b) { assert BlockKept(v, u, b) && BlockKept(u, w, b); }
  }

  lemma ChargedKept(v: View, mid: View, gen: Generation, kind: PageKind, c: nat, n: nat, objects: set<Block>)
    requires |v.starts| == |v.cells| == PAGE_CELLS * |v.descs| && BlocksOk(v, objects)
    requires RoomAt(v, mid, gen, kind, c, n) && HasRegion(gen, kind)
    ensures ObjectsKept(v, Charged(mid, c, n), objects)
  {
    var w := Charged(mid, c, n);
    forall b | b in objects ensures BlockKept(v, w, b) {
      assert BlockOk(v, b);
      assert b.c / PAGE_CELLS != c / PAGE_CELLS || mid == v;
    }
  }

  lemma StartedKept(v: View, c: nat, st: Start, objects: set<Block>)
    requires |v.starts| == |v.cells| == PAGE_CELLS * |v.descs| && BlocksOk(v, objects) && c < |v.starts|
    requires forall b | b in objects :: c < b.c || b.c + b.n <= c
    ensures ObjectsKept(v, Started(v, c, st), objects)
  {
    forall b | b in objects ensures BlockKept(v, Started(v, c, st), b) { assert BlockOk(v, b); }
  }

  // -- A bump ---------------------------------------------------------------

  function Bumped(t: Tlab, n: nat): Tlab { t.(cursor := t.cursor + n) }

  lemma BumpBlocks(v: View, objects: set<Block>, t: Tlab, gen: Generation, kind: PageKind, n: nat, st: Start)
    requires |v.starts| == |v.cells| == PAGE_CELLS * |v.descs| && BlocksOk(v, objects) && BlocksApart(objects)
    requires TlabOk(v, gen, kind, t) && Unused(t, objects) && 1 <= n <= t.Room() && st != NoStart
    ensures t.cursor < |v.starts|
    ensures BlocksOk(Started(v, t.cursor, st), objects + {Block(t.cursor, n, st)})
    ensures BlocksApart(objects + {Block(t.cursor, n, st)})
  {
    var w, b := Started(v, t.cursor, st), Block(t.cursor, n, st);
    forall a | a in objects + {b} ensures BlockOk(w, a) {
      if a != b { assert BlockOk(v, a) && Apart(t.cursor, t.Room(), a.c, a.n); }
    }
  }

  lemma BumpOneTlab(v: View, gen: Generation, kind: PageKind, t: Tlab, n: nat, st: Start)
    requires |v.starts| == |v.cells| == PAGE_CELLS * |v.descs| && TlabOk(v, gen, kind, t)
    requires 1 <= n <= t.Room() && t.cursor < |v.starts|
    ensures TlabOk(Started(v, t.cursor, st), gen, kind, Bumped(t, n))
  {
    if n < t.Room() {
      assert (t.cursor + n) / PAGE_CELLS == t.cursor / PAGE_CELLS;
    }
  }

  lemma BumpOtherTlab(v: View, gen: Generation, kind: PageKind, t: Tlab, c: nat, st: Start)
    requires |v.starts| == |v.cells| == PAGE_CELLS * |v.descs| && TlabOk(v, gen, kind, t)
    requires c < |v.starts| && (t.Room() > 0 ==> Apart(t.cursor, t.Room(), c, 1))
    ensures TlabOk(Started(v, c, st), gen, kind, t)
  {
  }

  lemma BumpTlabs(v: View, tlabs: map<Slot, Tlab>, s: Slot, n: nat, st: Start)
    requires |v.starts| == |v.cells| == PAGE_CELLS * |v.descs| && TlabsOk(v, tlabs) && TlabsApart(tlabs)
    requires s in tlabs && 1 <= n <= tlabs[s].Room() && tlabs[s].cursor < |v.starts|
    ensures TlabsOk(Started(v, tlabs[s].cursor, st), tlabs[s := Bumped(tlabs[s], n)])
    ensures TlabsApart(tlabs[s := Bumped(tlabs[s], n)])
  {
    hide TlabOk;
    var w, t, tlabs' := Started(v, tlabs[s].cursor, st), tlabs[s], tlabs[s := Bumped(tlabs[s], n)];
    forall r | r in tlabs' ensures r.1 < 6 && TlabOk(w, RegionGen(r.1), RegionKind(r.1), tlabs'[r]) {
      if r == s {
        BumpOneTlab(v, RegionGen(s.1), RegionKind(s.1), t, n, st);
      } else {
        assert TlabApart(tlabs[r], t);
        BumpOtherTlab(v, RegionGen(r.1), RegionKind(r.1), tlabs[r], t.cursor, st);
      }
    }
    forall r, q | r in tlabs' && q in tlabs' && r != q ensures TlabApart(tlabs'[r], tlabs'[q]) {
      assert TlabApart(tlabs[r], tlabs[q]);
    }
  }

  lemma BumpUnused(tlabs: map<Slot, Tlab>, objects: set<Block>, s: Slot, n: nat, st: Start)
    requires TlabsUnused(tlabs, objects) && TlabsApart(tlabs) && s in tlabs && 1 <= n <= tlabs[s].Room()
    ensures TlabsUnused(tlabs[s := Bumped(tlabs[s], n)], objects + {Block(tlabs[s].cursor, n, st)})
  {
    var t, tlabs', b := tlabs[s], tlabs[s := Bumped(tlabs[s], n)], Block(tlabs[s].cursor, n, st);
    forall r | r in tlabs' ensures Unused(tlabs'[r], objects + {b}) {
      assert Unused(tlabs[r], objects);
      if r != s { assert TlabApart(tlabs[r], t); }
    }
  }

  lemma BumpStarts(v: View, objects: set<Block>, c: nat, n: nat, st: Start)
    requires StartsOwned(v, objects) && c < |v.starts|
    ensures StartsOwned(Started(v, c, st), objects + {Block(c, n, st)})
  {
    var w, b := Started(v, c, st), Block(c, n, st);
    forall x: nat | x < |w.starts| && IsObj(w, x) ensures StartOf(objects + {b}, x) {
      if x == c {
        assert b in objects + {b} && b.c == x;
      } else {
        assert IsObj(v, x) && StartOf(objects, x);
        var a :| a in objects && a.c == x;
        assert a in objects + {b};
      }
    }
  }

  /** An object bumped off the front of a slab. */
  lemma BumpKeeps(v: View, tlabs: map<Slot, Tlab>, objects: set<Block>, s: Slot, n: nat, st: Start)
    requires SystemOk(v, tlabs, objects) && s in tlabs && 1 <= n <= tlabs[s].Room() && st != NoStart
    ensures tlabs[s].cursor < |v.starts| && v.starts[tlabs[s].cursor] == NoStart
    ensures forall x | tlabs[s].cursor <= x < tlabs[s].cursor + n :: x < |v.cells| && v.cells[x] == 0
    ensures SystemOk(Started(v, tlabs[s].cursor, st), tlabs[s := Bumped(tlabs[s], n)],
        objects + {Block(tlabs[s].cursor, n, st)})
  {
    assert TlabOk(v, RegionGen(s.1), RegionKind(s.1), tlabs[s]) && Unused(tlabs[s], objects);
    hide BlocksOk, BlocksApart, TlabsOk, TlabsUnused, TlabsApart, StartsOwned, Unused;
    BumpBlocks(v, objects, tlabs[s], RegionGen(s.1), RegionKind(s.1), n, st);
    BumpTlabs(v, tlabs, s, n, st);
    BumpUnused(tlabs, objects, s, n, st);
    BumpStarts(v, objects, tlabs[s].cursor, n, st);
  }

  // -- A refill, and an object from the central path ------------------------

  /** Fresh room lies beyond every object and every slab. */
  lemma RoomIsFree(v: View, mid: View, gen: Generation, kind: PageKind, c: nat, n: nat, tlabs: map<Slot, Tlab>,
                   objects: set<Block>)
    requires SystemOk(v, tlabs, objects) && RoomAt(v, mid, gen, kind, c, n)
    ensures forall b | b in objects :: Apart(c, n, b.c, b.n)
    ensures forall s | s in tlabs && tlabs[s].Room() > 0 :: Apart(c, n, tlabs[s].cursor, tlabs[s].Room())
  {
    forall b | b in objects ensures Apart(c, n, b.c, b.n) { assert BlockOk(v, b); }
    forall s | s in tlabs && tlabs[s].Room() > 0 ensures Apart(c, n, tlabs[s].cursor, tlabs[s].Room()) {
      assert TlabOk(v, RegionGen(s.1), RegionKind(s.1), tlabs[s]);
    }
  }

  /** What fresh room looks like once charged. */
  lemma RoomIsClean(v: View, committed: seq<bool>, mid: View, gen: Generation, kind: PageKind, c: nat, n: nat)
    requires MemoryOk(v, committed) && RoomAt(v, mid, gen, kind, c, n) && HasRegion(gen, kind)
    ensures |mid.starts| == |mid.cells| == PAGE_CELLS * |mid.descs| && |mid.descs| == |v.descs|
    ensures forall x | c <= x < c + n :: x < |mid.starts| && mid.starts[x] == NoStart && mid.cells[x] == 0
    ensures GenAt(mid, c) == gen && mid.descs[c / PAGE_CELLS].kind == kind
  {
    forall x | c <= x < c + n ensures x / PAGE_CELLS == c / PAGE_CELLS && x % PAGE_CELLS >= c % PAGE_CELLS {}
    if mid == v {
      forall x | c <= x < c + n ensures mid.starts[x] == NoStart && mid.cells[x] == 0 {
        NoStartAtFill(v, committed, x);
        assert CellZeroIfUnused(v, committed, x);
      }
    }
  }

  /** Carving leaves the objects and slabs there are alone. */
  lemma ChargedKeeps(v: View, mid: View, gen: Generation, kind: PageKind, c: nat, n: nat, tlabs: map<Slot, Tlab>,
                     objects: set<Block>)
    requires SystemOk(v, tlabs, objects) && RoomAt(v, mid, gen, kind, c, n) && HasRegion(gen, kind)
    requires |mid.starts| == |mid.cells| == PAGE_CELLS * |mid.descs| && |mid.descs| == |v.descs|
    ensures SystemOk(Charged(mid, c, n), tlabs, objects)
  {
    var w := Charged(mid, c, n);
    forall b | b in objects ensures BlockOk(w, b) {
      assert BlockOk(v, b);
      assert b.c / PAGE_CELLS != c / PAGE_CELLS || mid == v;
    }
    forall s | s in tlabs ensures s.1 < 6 && TlabOk(w, RegionGen(s.1), RegionKind(s.1), tlabs[s]) {
      assert TlabOk(v, RegionGen(s.1), RegionKind(s.1), tlabs[s]);
    }
    hide BlockOk, TlabOk;
    forall x: nat | x < |w.starts| && IsObj(w, x) ensures StartOf(objects, x) { assert IsObj(v, x); }
  }

  /** A refilled slab takes the place of the old one, whose unused tail is abandoned. */
  lemma RefillKeeps(v: View, committed: seq<bool>, mid: View, gen: Generation, kind: PageKind, c: nat, n: nat,
                    tlabs: map<Slot, Tlab>, objects: set<Block>, s: Slot, next: nat)
    requires SystemOk(v, tlabs, objects) && MemoryOk(v, committed) && HasRegion(gen, kind)
    requires RoomAt(v, mid, gen, kind, c, n) && s.1 == RegionIndex(gen, kind)
    ensures SystemOk(Charged(mid, c, n), tlabs[s := Tlab(c, c + n, next)], objects)
  {
    RoomIsFree(v, mid, gen, kind, c, n, tlabs, objects);
    RoomIsClean(v, committed, mid, gen, kind, c, n);
    ChargedKeeps(v, mid, gen, kind, c, n, tlabs, objects);
    var w, t, tlabs' := Charged(mid, c, n), Tlab(c, c + n, next), tlabs[s := Tlab(c, c + n, next)];
    assert TlabOk(w, gen, kind, t);
    hide TlabOk, Charged, RoomAt, MemoryOk, StartsOwned, BlocksOk, BlocksApart;
    forall r | r in tlabs' ensures Unused(tlabs'[r], objects) {
      if r != s { assert Unused(tlabs[r], objects); }
    }
    forall r, q | r in tlabs' && q in tlabs' && r != q ensures TlabApart(tlabs'[r], tlabs'[q]) {
      if r != s && q != s { assert TlabApart(tlabs[r], tlabs[q]); }
    }
  }

  /** Slabs may be dropped at any time. */
  lemma DropKeeps(v: View, tlabs: map<Slot, Tlab>, objects: set<Block>, fewer: map<Slot, Tlab>)
    requires SystemOk(v, tlabs, objects)
    requires forall s | s in fewer :: s.1 < 6 && ((s in tlabs && fewer[s] == tlabs[s]) || fewer[s].Room() == 0)
    ensures SystemOk(v, fewer, objects)
  {
  }

  /** A start recorded in a slab suits its page. */
  lemma StartedMemory(v: View, committed: seq<bool>, c: nat, st: Start)
    requires MemoryOk(v, committed) && c < |v.starts| && v.descs[c / PAGE_CELLS].generation != Free
    requires c % PAGE_CELLS < v.descs[c / PAGE_CELLS].wordsUsed
    requires (v.descs[c / PAGE_CELLS].kind == Cons ==> st == ConsStart)
    ensures MemoryOk(Started(v, c, st), committed)
  {
    var w := Started(v, c, st);
    forall x | 0 <= x < |w.cells| ensures CellZeroIfUnused(w, committed, x) {
      assert CellZeroIfUnused(v, committed, x);
    }
    forall x | 0 <= x < |w.starts| && IsObj(w, x)
      ensures x % PAGE_CELLS < w.descs[x / PAGE_CELLS].wordsUsed
              && (w.descs[x / PAGE_CELLS].kind == Cons ==> w.starts[x] == ConsStart)
    {
      assert x != c ==> IsObj(v, x);
    }
  }

  /** The slab at `c` that takes the place of `t` when `n` cells are wanted and `room` are left in the
      open page; the next refill asks for twice as much. */
  function NewSlab(t: Tlab, room: nat, n: nat, c: nat): (r: Tlab)
    ensures 1 <= n <= PAGE_CELLS ==> r.Room() >= n
  {
    Tlab(c, c + SlabCells(room, n, t.nextRefill),
      if t.nextRefill * 2 <= MAX_TLAB_CELLS then t.nextRefill * 2 else MAX_TLAB_CELLS)
  }

  /** The slab that an object of `n` cells at `c` is bumped off. */
  function SlabFor(t: Tlab, room: nat, n: nat, c: nat): Tlab { if t.Room() >= n then t else NewSlab(t, room, n, c) }

  /** Six empty slabs for mutator `m`. */
  function WithEmpty(tlabs: map<Slot, Tlab>, m: nat): (r: map<Slot, Tlab>)
    ensures forall s :: s in r <==> s in tlabs || (s.0 == m && s.1 < 6)
    ensures forall s | s in r :: r[s] == if s.0 == m && s.1 < 6 then EMPTY_TLAB else tlabs[s]
  {
    map s | s in tlabs.Keys + {(m, 0), (m, 1), (m, 2), (m, 3), (m, 4), (m, 5)} ::
      if s.0 == m && s.1 < 6 then EMPTY_TLAB else tlabs[s]
  }

  /** The mutators of a heap, each with one slab per generation and kind. `objects` is
      what they and the central path have allocated since the slabs were last flushed. */
  class Mutators {
    const heap: PageHeap
    var count: nat
    var tlabs: map<Slot, Tlab>
    var refills: seq<nat>
    ghost var objects: set<Block>

    ghost predicate Slots()
      reads this
    {
      |refills| == count && forall s :: s in tlabs <==> s.0 < count && s.1 < 6
    }

    ghost predicate Ok()
      reads this, heap, heap.cells, heap.startTable.bits, heap.cards
    {
      heap.Inv() && Slots() && SystemOk(heap.V(), tlabs, objects)
    }

    /** Fit to be used, or poisoned by a failed collection and then in whatever state that left. */
    ghost predicate OkOrPoisoned()
      reads this, heap, heap.cells, heap.startTable.bits, heap.cards
    {
      heap.Valid() && Slots() && (heap.poisoned || Ok())
    }

    /** Over a heap whose objects are `existing`. */
    constructor (heap: PageHeap, ghost existing: set<Block>)
      requires heap.Inv() && SystemOk(heap.V(), map[], existing)
      ensures Ok() && this.heap == heap && count == 0 && objects == existing
    {
      this.heap := heap;
      count, tlabs, refills := 0, map[], [];
      objects := existing;
    }

    /** `register_mutator`: a newcomer has no slabs. */
    method Register() returns (m: nat)
      requires OkOrPoisoned()
      modifies this
      ensures OkOrPoisoned() && (old(Ok()) ==> Ok())
      ensures m == old(count) && count == old(count) + 1 && objects == old(objects)
      ensures forall s | s in tlabs :: tlabs[s] == if s in old(tlabs) then old(tlabs)[s] else EMPTY_TLAB
      ensures refills == old(refills) + [0]
    {
      hide SystemOk, MemoryOk, PagesOk, RegionsOk, Starts, GeoOk, WellPaired;
      m := count;
      ghost var before := tlabs;
      ghost var ok := Ok();
      tlabs := WithEmpty(tlabs, m);
      if ok { DropKeeps(heap.V(), before, objects, tlabs); }
      refills := refills + [0];
      count := count + 1;
    }

    /** `flush_tlabs`: the slabs go, what they hold stays charged and zero. */
    method Flush(m: nat)
      requires OkOrPoisoned() && m < count
      modifies `tlabs
      ensures OkOrPoisoned() && (old(Ok()) ==> Ok()) && objects == old(objects)
      ensures forall i | 0 <= i < 6 :: (m, i) in tlabs && tlabs[(m, i)] == EMPTY_TLAB
      ensures forall s | s in old(tlabs) && s.0 != m :: s in tlabs && tlabs[s] == old(tlabs)[s]
    {
      hide SystemOk, MemoryOk, PagesOk, RegionsOk, Starts, GeoOk, WellPaired;
      ghost var before, ok := tlabs, Ok();
      tlabs := map s | s in tlabs :: if s.0 == m then EMPTY_TLAB else tlabs[s];
      if ok { DropKeeps(heap.V(), before, objects, tlabs); }
    }

    /** `refill`: one slab carved under the heap lock, sized 4 KB to 64 KB in turn. */
    method Refill(m: nat, gen: Generation, kind: PageKind, minCells: nat) returns (ok: bool)
      requires Ok() && m < count && HasRegion(gen, kind) && 1 <= minCells <= PAGE_CELLS
      modifies `tlabs, `refills, heap`descs, heap`regions, heap`committed, heap`freeList, heap`highWater, heap.cells,
        heap.startTable.bits
      ensures Ok() && objects == old(objects) && ObjectsKept(old(heap.V()), heap.V(), objects)
      ensures refills == old(refills)[m := old(refills)[m] + 1]
      ensures ok == !old(Refused(heap, gen, kind, minCells))
      ensures !ok ==> tlabs == old(tlabs) && heap.V() == old(heap.V())
      ensures ok ==> var s, c := (m, RegionIndex(gen, kind)), tlabs[(m, RegionIndex(gen, kind))].cursor;
                && NextRoom(old(heap.descs), old(heap.regions), gen, kind, minCells, c)
                && tlabs == old(tlabs)[s :=
                     NewSlab(old(tlabs)[s], RoomLeft(old(heap.regions), gen, kind), minCells, c)]
      ensures heap.liveTarget != Some(G0) ==> CapKept(old(heap.descs), heap.descs, heap.youngPageCap)
      ensures InUseKept(old(heap.descs), heap.descs)
    {
      hide SystemOk, MemoryOk, PagesOk, RegionsOk, Starts, GeoOk, WellPaired, SlabAt, ObjectsKept, NextRoom, CapKept,
        RoomLeft;
      var s := (m, RegionIndex(gen, kind));
      ghost var v, committed0 := heap.V(), heap.committed;
      var want := if tlabs[s].nextRefill >= minCells then tlabs[s].nextRefill else minCells;
      var slab, mid := ReserveTlab(heap, gen, kind, minCells, want);
      refills := refills[m := refills[m] + 1];
      match slab {
        case None =>
          SystemKept(v, tlabs, objects);
          return false;
        case Some((c, n)) =>
          SlabKept(v, mid, heap.V(), gen, kind, c, n, tlabs, objects);
          var next := if tlabs[s].nextRefill * 2 <= MAX_TLAB_CELLS then tlabs[s].nextRefill * 2 else MAX_TLAB_CELLS;
          SlabRefills(v, committed0, mid, heap.V(), gen, kind, c, n, tlabs, objects, s, next);
          tlabs := tlabs[s := Tlab(c, c + n, next)];
          return true;
      }
    }

    /** The fast path: a hit advances the cursor and records the start. */
    method BumpInSlab(m: nat, gen: Generation, kind: PageKind, n: nat, isCons: bool) returns (c: nat)
      requires Ok() && m < count && HasRegion(gen, kind) && 1 <= n <= tlabs[(m, RegionIndex(gen, kind))].Room()
      requires kind == Cons ==> isCons
      modifies this`tlabs, this`objects, heap`bytesAlloc, heap.startTable.bits
      ensures Ok() && c == old(tlabs)[(m, RegionIndex(gen, kind))].cursor && c < |old(heap.V()).starts|
      ensures heap.V() == Started(old(heap.V()), c, if isCons then ConsStart else HeaderStart)
      ensures Allocated(old(heap.V()), heap.V(), old(objects), objects, c, n, if isCons then ConsStart else HeaderStart)
      ensures ObjectsKept(old(heap.V()), heap.V(), old(objects)) && PageOf(heap.V(), c, gen, kind)
      ensures heap.bytesAlloc == old(heap.bytesAlloc) + 8 * n
      ensures tlabs == old(tlabs)[(m, RegionIndex(gen, kind)) := Bumped(old(tlabs)[(m, RegionIndex(gen, kind))], n)]
    {
      hide SystemOk, MemoryOk, PagesOk, RegionsOk, Starts, GeoOk, WellPaired, Started, BlockOk, ObjectsKept;
      var s := (m, RegionIndex(gen, kind));
      ghost var v, st := heap.V(), if isCons then ConsStart else HeaderStart;
      c := tlabs[s].cursor;
      BumpKeeps(v, tlabs, objects, s, n, st);
      SlabPage(v, tlabs, objects, s, n);
      BumpedKept(v, tlabs, objects, s, n, st);
      tlabs := tlabs[s := Bumped(tlabs[s], n)];
      if isCons {
        heap.startTable.SetConsStart(c);
      } else {
        heap.startTable.SetStart(c);
      }
      heap.bytesAlloc := heap.bytesAlloc + 8 * n;
      StartedIs(v, heap.V(), c, st);
      StartedMemory(v, heap.committed, c, st);
      ghost var was := objects;
      objects := objects + {Block(c, n, st)};
      AllocatedBy(v, heap.V(), old(tlabs), was, s, c, n, st);
    }

    /** `bump`: the fast path, after at most one refill. It refuses exactly when the heap is poisoned, or
        the slab has no room and none is to be had. */
    method Bump(m: nat, gen: Generation, kind: PageKind, n: nat, isCons: bool) returns (r: Option<nat>)
      requires OkOrPoisoned() && m < count && HasRegion(gen, kind) && 1 <= n <= PAGE_CELLS && (kind == Cons ==> isCons)
      modifies `tlabs, `refills, `objects, heap`descs, heap`regions, heap`bytesAlloc, heap`committed, heap`freeList,
        heap`highWater, heap.cells, heap.startTable.bits
      ensures OkOrPoisoned() && (old(Ok()) ==> Ok() && ObjectsKept(old(heap.V()), heap.V(), old(objects)))
      ensures r.None? <==> old(heap.poisoned
                  || (tlabs[(m, RegionIndex(gen, kind))].Room() < n && Refused(heap, gen, kind, n)))
      ensures r.None? ==> objects == old(objects) && tlabs == old(tlabs) && heap.V() == old(heap.V())
      ensures r.Some? ==>
          Allocated(heap.V(), heap.V(), old(objects), objects, r.value, n, if isCons then ConsStart else HeaderStart)
      ensures r.Some? ==> PageOf(heap.V(), r.value, gen, kind)
      ensures r.Some? ==> var s := (m, RegionIndex(gen, kind));
                var slab := SlabFor(old(tlabs)[s], RoomLeft(old(heap.regions), gen, kind), n, r.value);
                r.value == slab.cursor && tlabs == old(tlabs)[s := Bumped(slab, n)]
      ensures r.Some? && old(tlabs)[(m, RegionIndex(gen, kind))].Room() < n ==>
                NextRoom(old(heap.descs), old(heap.regions), gen, kind, n, r.value)
      ensures refills == if old(heap.poisoned || tlabs[(m, RegionIndex(gen, kind))].Room() >= n) then old(refills)
                         else old(refills)[m := old(refills)[m] + 1]
      ensures heap.bytesAlloc == old(heap.bytesAlloc) + if r.Some? then 8 * n else 0
      ensures heap.liveTarget != Some(G0) ==> CapKept(old(heap.descs), heap.descs, heap.youngPageCap)
      ensures InUseKept(old(heap.descs), heap.descs)
    {
      hide SystemOk, MemoryOk, PagesOk, RegionsOk, Starts, GeoOk, WellPaired, Started, BlockOk, Allocated, IsObj,
        ObjectsKept, NextRoom, CapKept, NewSlab, Refused, PageOf, InUseKept, CardsClean, RoomLeft;
      CapStart(heap.descs, heap.youngPageCap);
      if heap.poisoned {
        if Ok() { SystemKept(heap.V(), tlabs, objects); }
        return None;
      }
      SystemKept(heap.V(), tlabs, objects);
      var s := (m, RegionIndex(gen, kind));
      ghost var t, room, refilled := tlabs[s], RoomLeft(heap.regions, gen, kind), false;
      while true
        invariant Ok() && objects == old(objects) && ObjectsKept(old(heap.V()), heap.V(), objects)
        invariant heap.bytesAlloc == old(heap.bytesAlloc)
        invariant heap.liveTarget != Some(G0) ==> CapKept(old(heap.descs), heap.descs, heap.youngPageCap)
        invariant InUseKept(old(heap.descs), heap.descs)
        invariant !refilled ==> refills == old(refills) && tlabs == old(tlabs) && heap.V() == old(heap.V())
                                && heap.regions == old(heap.regions)
        invariant refilled ==> t.Room() < n && refills == old(refills)[m := old(refills)[m] + 1]
                               && tlabs[s].Room() >= n && !old(Refused(heap, gen, kind, n))
                               && tlabs == old(tlabs)[s := NewSlab(t, room, n, tlabs[s].cursor)]
                               && NextRoom(old(heap.descs), old(heap.regions), gen, kind, n, tlabs[s].cursor)
        decreases if tlabs[s].Room() >= n then 0 else 1
      {
        if tlabs[s].Room() >= n {
          ghost var v := heap.V();
          var c := BumpInSlab(m, gen, kind, n, isCons);
          AllocatedNow(v, heap.V(), old(objects), objects, c, n, if isCons then ConsStart else HeaderStart);
          KeptTrans(old(heap.V()), v, heap.V(), old(objects));
          return Some(c);
        }
        ghost var u := heap.V();
        var ok := Refill(m, gen, kind, n);
        KeptTrans(old(heap.V()), u, heap.V(), old(objects));
        if !ok { return None; }
        refilled := true;
      }
    }

    /** An object from the central path, in between. */
    method AllocCentral(gen: Generation, kind: PageKind, n: nat, isCons: bool) returns (r: Option<nat>)
      requires OkOrPoisoned() && HasRegion(gen, kind) && 1 <= n <= PAGE_CELLS && (kind == Cons ==> isCons)
      modifies `objects, heap`descs, heap`regions, heap`bytesAlloc, heap`committed, heap`freeList, heap`highWater,
        heap.cells, heap.startTable.bits
      ensures OkOrPoisoned() && (old(Ok()) ==> Ok() && ObjectsKept(old(heap.V()), heap.V(), old(objects)))
      ensures r.None? <==> old(Refused(heap, gen, kind, n))
      ensures r.None? ==> objects == old(objects) && heap.V() == old(heap.V())
      ensures r.Some? ==>
          Allocated(heap.V(), heap.V(), old(objects), objects, r.value, n, if isCons then ConsStart else HeaderStart)
      ensures r.Some? ==> PageOf(heap.V(), r.value, gen, kind)
      ensures r.Some? ==> NextRoom(old(heap.descs), old(heap.regions), gen, kind, n, r.value)
      ensures heap.bytesAlloc == old(heap.bytesAlloc) + if r.Some? then 8 * n else 0
      ensures heap.liveTarget != Some(G0) ==> CapKept(old(heap.descs), heap.descs, heap.youngPageCap)
      ensures InUseKept(old(heap.descs), heap.descs)
    {
      hide SystemOk, MemoryOk, PagesOk, RegionsOk, Starts, GeoOk, WellPaired, BlockOk, Allocated, BumpedAt, IsObj,
        ObjectsKept, NextRoom, CapKept, PageOf;
      ghost var v, committed0, st := heap.V(), heap.committed, if isCons then ConsStart else HeaderStart;
      ghost var mid;
      if Ok() { SystemKept(v, tlabs, objects); }
      r, mid := TryAllocInRegion(heap, gen, kind, n, isCons);
      if r.Some? {
        BumpedSizes(v, committed0, mid, heap.V(), gen, kind, r.value, n, st);
        CentralKept(v, mid, heap.V(), gen, kind, r.value, n, st, tlabs, objects);
        CentralKeeps(v, committed0, mid, heap.V(), gen, kind, r.value, n, st, tlabs, objects, (count, RegionIndex(gen,
          kind)));
        objects := objects + {Block(r.value, n, st)};
      }
    }

    /** A mutator writes a field of an object it holds. */
    method Store(b: Block, offset: nat, w: u64)
      requires OkOrPoisoned() && offset < b.n && b.c + offset < heap.cells.Length
      requires !heap.poisoned ==> b in objects
      modifies heap.cells
      ensures OkOrPoisoned() && (old(Ok()) && b in objects ==> Ok())
      ensures heap.V() == old(heap.V()).(cells := old(heap.V()).cells[b.c + offset := w])
    {
      hide SystemOk, MemoryOk, PagesOk, RegionsOk, Starts, GeoOk, WellPaired;
      if Ok() && b in objects { StoreKeeps(heap.V(), heap.committed, tlabs, objects, b, offset, w); }
      heap.WriteCell(b.c + offset, w);
    }
  }

  lemma SystemKept(v: View, tlabs: map<Slot, Tlab>, objects: set<Block>)
    requires SystemOk(v, tlabs, objects)
    ensures ObjectsKept(v, v, objects)
  {
    hide BlocksOk;
    SameKept(v, objects);
  }

  lemma SlabKept(v: View, mid: View, w: View, gen: Generation, kind: PageKind, c: nat, n: nat, tlabs: map<Slot, Tlab>,
                 objects: set<Block>)
    requires SystemOk(v, tlabs, objects) && SlabAt(v, mid, w, gen, kind, c, n) && HasRegion(gen, kind)
    ensures ObjectsKept(v, w, objects)
  {
    hide BlocksOk, ObjectsKept, Charged;
    ChargedKept(v, mid, gen, kind, c, n, objects);
  }

  /** A bump in a slab touches no object. */
  lemma BumpedKept(v: View, tlabs: map<Slot, Tlab>, objects: set<Block>, s: Slot, n: nat, st: Start)
    requires SystemOk(v, tlabs, objects) && s in tlabs && 1 <= n <= tlabs[s].Room() && tlabs[s].cursor < |v.starts|
    ensures ObjectsKept(v, Started(v, tlabs[s].cursor, st), objects)
  {
    assert Unused(tlabs[s], objects);
    hide BlocksOk;
    StartedKept(v, tlabs[s].cursor, st, objects);
  }

  lemma BumpedSizes(v: View, committed: seq<bool>, mid: View, w: View, gen: Generation, kind: PageKind, c: nat, n: nat,
                    st: Start)
    requires MemoryOk(v, committed) && BumpedAt(v, mid, w, gen, kind, c, n, st) && HasRegion(gen, kind)
    ensures |mid.starts| == |mid.cells| == PAGE_CELLS * |mid.descs| && |mid.descs| == |v.descs|
    ensures PageOf(w, c, gen, kind)
  {
    RoomIsClean(v, committed, mid, gen, kind, c, n);
  }

  lemma CentralKept(v: View, mid: View, w: View, gen: Generation, kind: PageKind, c: nat, n: nat, st: Start,
                    tlabs: map<Slot, Tlab>, objects: set<Block>)
    requires SystemOk(v, tlabs, objects) && BumpedAt(v, mid, w, gen, kind, c, n, st) && HasRegion(gen, kind)
    requires |mid.starts| == |mid.cells| == PAGE_CELLS * |mid.descs| && |mid.descs| == |v.descs|
    ensures ObjectsKept(v, w, objects)
  {
    ChargedKept(v, mid, gen, kind, c, n, objects);
    ChargedKeeps(v, mid, gen, kind, c, n, tlabs, objects);
    RoomIsFree(v, mid, gen, kind, c, n, tlabs, objects);
    StartedKept(Charged(mid, c, n), c, st, objects);
    KeptTrans(v, Charged(mid, c, n), w, objects);
  }

  lemma SlabRefills(v: View, committed: seq<bool>, mid: View, w: View, gen: Generation, kind: PageKind, c: nat, n: nat,
                    tlabs: map<Slot, Tlab>, objects: set<Block>, s: Slot, next: nat)
    requires SystemOk(v, tlabs, objects) && MemoryOk(v, committed) && HasRegion(gen, kind)
    requires SlabAt(v, mid, w, gen, kind, c, n) && s.1 == RegionIndex(gen, kind)
    ensures SystemOk(w, tlabs[s := Tlab(c, c + n, next)], objects)
  {
    RefillKeeps(v, committed, mid, gen, kind, c, n, tlabs, objects, s, next);
  }

  /** The block `[c, c + n)` is new: apart from every object there was, zero, with its
      start recorded, and it is the only change to the objects. */
  ghost predicate Allocated(v: View, w: View, before: set<Block>, after: set<Block>, c: nat, n: nat, st: Start)
  {
    && |w.starts| == |w.cells| == PAGE_CELLS * |w.descs|
    && after == before + {Block(c, n, st)} && Block(c, n, st) !in before && BlockOk(w, Block(c, n, st))
    && (forall b | b in before :: Apart(c, n, b.c, b.n))
    && (forall x | c <= x < c + n :: x < |w.cells| && w.cells[x] == 0)
  }

  lemma StartedIs(v: View, w: View, c: nat, st: Start)
    requires c < |v.starts| && w.cells == v.cells && w.descs == v.descs
    requires w.starts == v.starts[c := st]
    ensures w == Started(v, c, st)
  {
  }

  /** The page of `c` is one of (gen, kind). */
  predicate PageOf(v: View, c: nat, gen: Generation, kind: PageKind) {
    && c / PAGE_CELLS < |v.descs| && v.descs[c / PAGE_CELLS].generation == gen
    && v.descs[c / PAGE_CELLS].kind == kind
  }

  lemma CapStart(descs: seq<PageDesc>, cap: nat)
    ensures CapKept(descs, descs, cap) && InUseKept(descs, descs)
  {
  }

  lemma SlabPage(v: View, tlabs: map<Slot, Tlab>, objects: set<Block>, s: Slot, n: nat)
    requires SystemOk(v, tlabs, objects) && s in tlabs && 1 <= n <= tlabs[s].Room()
    ensures s.1 < 6 && tlabs[s].cursor < |v.starts|
    ensures v.descs[tlabs[s].cursor / PAGE_CELLS].generation != Free
    ensures v.descs[tlabs[s].cursor / PAGE_CELLS].kind == RegionKind(s.1)
    ensures PageOf(v, tlabs[s].cursor, RegionGen(s.1), RegionKind(s.1))
    ensures tlabs[s].cursor % PAGE_CELLS < v.descs[tlabs[s].cursor / PAGE_CELLS].wordsUsed
  {
    assert TlabOk(v, RegionGen(s.1), RegionKind(s.1), tlabs[s]);
  }

  lemma AllocatedBy(v: View, w: View, tlabs: map<Slot, Tlab>, objects: set<Block>, s: Slot, c: nat, n: nat, st: Start)
    requires SystemOk(v, tlabs, objects) && s in tlabs && 1 <= n <= tlabs[s].Room() && c == tlabs[s].cursor
    requires st != NoStart
    requires c < |v.starts| && w == Started(v, c, st)
    requires SystemOk(w, tlabs[s := Bumped(tlabs[s], n)], objects + {Block(c, n, st)})
    ensures Allocated(v, w, objects, objects + {Block(c, n, st)}, c, n, st)
  {
    assert Unused(tlabs[s], objects);
    assert TlabOk(v, RegionGen(s.1), RegionKind(s.1), tlabs[s]);
    hide BlocksOk, BlocksApart, TlabsOk, TlabsUnused, TlabsApart, StartsOwned;
    assert Block(c, n, st) in objects + {Block(c, n, st)};
    assert BlockOk(w, Block(c, n, st)) by { OneBlock(w, objects + {Block(c, n, st)}, Block(c, n, st)); }
  }

  lemma OneBlock(v: View, objects: set<Block>, b: Block)
    requires |v.starts| == |v.cells| == PAGE_CELLS * |v.descs| && BlocksOk(v, objects) && b in objects
    ensures BlockOk(v, b)
  {
  }

  lemma AllocatedNow(v: View, w: View, before: set<Block>, after: set<Block>, c: nat, n: nat, st: Start)
    requires Allocated(v, w, before, after, c, n, st)
    ensures Allocated(w, w, before, after, c, n, st)
  {
  }

  lemma CentralKeeps(v: View, committed: seq<bool>, mid: View, w: View, gen: Generation, kind: PageKind, c: nat,
                     n: nat, st: Start, tlabs: map<Slot, Tlab>, objects: set<Block>, s: Slot)
    requires SystemOk(v, tlabs, objects) && MemoryOk(v, committed) && HasRegion(gen, kind) && st != NoStart
    requires BumpedAt(v, mid, w, gen, kind, c, n, st) && s !in tlabs && s.1 == RegionIndex(gen, kind)
    ensures SystemOk(w, tlabs, objects + {Block(c, n, st)})
    ensures Allocated(w, w, objects, objects + {Block(c, n, st)}, c, n, st)
  {
    hide SystemOk, MemoryOk, RoomAt, Allocated, BlockOk;
    var slab := tlabs[s := Tlab(c, c + n, 0)];
    SlabSize(v, mid, gen, kind, c, n);
    RefillKeeps(v, committed, mid, gen, kind, c, n, tlabs, objects, s, 0);
    BumpKeeps(Charged(mid, c, n), slab, objects, s, n, st);
    AllocatedBy(Charged(mid, c, n), w, slab, objects, s, c, n, st);
    AllocatedNow(Charged(mid, c, n), w, objects, objects + {Block(c, n, st)}, c, n, st);
    SlotsFit(v, tlabs, objects);
    DropKeeps(w, slab[s := Bumped(slab[s], n)], objects + {Block(c, n, st)}, tlabs);
  }

  lemma SlotsFit(v: View, tlabs: map<Slot, Tlab>, objects: set<Block>)
    requires SystemOk(v, tlabs, objects)
    ensures forall s | s in tlabs :: s.1 < 6
  {
    hide TlabOk;
  }

  lemma SlabSize(v: View, mid: View, gen: Generation, kind: PageKind, c: nat, n: nat)
    requires RoomAt(v, mid, gen, kind, c, n)
    ensures n >= 1
  {
  }

  /** Writing inside an object touches neither slabs nor starts. */
  lemma StoreKeeps(v: View, committed: seq<bool>, tlabs: map<Slot, Tlab>, objects: set<Block>, b: Block, offset: nat,
                   word: u64)
    requires SystemOk(v, tlabs, objects) && MemoryOk(v, committed) && b in objects && offset < b.n
    ensures b.c + offset < |v.cells|
    ensures SystemOk(v.(cells := v.cells[b.c + offset := word]), tlabs, objects)
    ensures MemoryOk(v.(cells := v.cells[b.c + offset := word]), committed)
  {
    OneBlock(v, objects, b);
    var c := b.c + offset;
    assert c / PAGE_CELLS == b.c / PAGE_CELLS;
    var w := v.(cells := v.cells[c := word]);
    StoreMemory(v, committed, c, word);
    forall s | s in tlabs ensures s.1 < 6 && TlabOk(w, RegionGen(s.1), RegionKind(s.1), tlabs[s]) {
      assert TlabOk(v, RegionGen(s.1), RegionKind(s.1), tlabs[s]) && Unused(tlabs[s], objects);
    }
    hide TlabOk, IsObj;
    forall a | a in objects ensures BlockOk(w, a) { OneBlock(v, objects, a); }
  }

  lemma StoreMemory(v: View, committed: seq<bool>, c: nat, word: u64)
    requires MemoryOk(v, committed) && c < |v.cells| && v.descs[c / PAGE_CELLS].generation != Free
    requires c % PAGE_CELLS < v.descs[c / PAGE_CELLS].wordsUsed
    ensures MemoryOk(v.(cells := v.cells[c := word]), committed)
  {
    var w := v.(cells := v.cells[c := word]);
    forall x | 0 <= x < |w.cells| ensures CellZeroIfUnused(w, committed, x) {
      assert CellZeroIfUnused(v, committed, x);
    }
  }

  // -- Between collections --------------------------------------------------

  /** The objects of a well-formed heap, as blocks. */
  function BlocksOf(g: Geometry, v: View): set<Block>
    requires Shaped(g, v)
  {
    set s | s in AllObjs(v) :: Block(s, SizeOf(g, v, s), v.starts[s])
  }

  /** A collection leaves a heap on which allocation may go on: its objects are blocks,
      pairwise disjoint, and no slab is outstanding. */
  lemma ReadyToAllocate(g: Geometry, v: View)
    requires HeapOk(g, v)
    ensures SystemOk(v, map[], BlocksOf(g, v))
  {
    var objects := BlocksOf(g, v);
    forall b | b in objects ensures BlockOk(v, b) {
      var s :| s in AllObjs(v) && b == Block(s, SizeOf(g, v, s), v.starts[s]);
      BlockOfObject(g, v, s);
    }
    forall a, b | a in objects && b in objects && a != b ensures Apart(a.c, a.n, b.c, b.n) {
      ObjectsApart(g, v, a.c, b.c);
    }
    forall x: nat | x < |v.starts| && IsObj(v, x) ensures StartOf(objects, x) {
      assert x in AllObjs(v) && Block(x, SizeOf(g, v, x), v.starts[x]) in objects;
    }
  }

  lemma BlockOfObject(g: Geometry, v: View, s: nat)
    requires HeapOk(g, v) && IsObj(v, s)
    ensures BlockOk(v, Block(s, SizeOf(g, v, s), v.starts[s]))
  {
    assert ObjOk(g, v, s);
    ExtentOwner(g, v, s, SizeOf(g, v, s) - 1);
  }

  lemma ObjectsApart(g: Geometry, v: View, a: nat, b: nat)
    requires HeapOk(g, v) && IsObj(v, a) && IsObj(v, b) && a != b
    ensures Apart(a, SizeOf(g, v, a), b, SizeOf(g, v, b))
  {
    assert ObjOk(g, v, a) && ObjOk(g, v, b);
  }
}
