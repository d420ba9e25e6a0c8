/** Phase 3 of an evacuation: the pages of a chunk are flipped to the destination
    generation around their pinned objects, or released to Free. */
module Reclaiming {
  import opened Bits
  import opened Options
  import opened Bitmaps
  import opened Pages
  import opened Objects
  import opened PageHeaps
  import opened Alloc
  import opened Cards
  import opened Copying

  // -- What reclaiming does to a view ---------------------------------------

  /** Cell `c` lies inside a pinned object. */
  predicate InPinned(g: Geometry, v: View, pins: set<nat>, c: nat)
    requires c < |v.starts| == |v.cells|
  {
    Owner(v.starts, c).Some? && Owner(v.starts, c).value in pins && Covered(g, v, c)
  }

  /** The page of `c` is one of the pages to reclaim and is in use. */
  predicate Reclaims(v: View, chunk: set<nat>, p: nat) {
    p in chunk && p < |v.descs| && v.descs[p].generation != Free
  }

  /** `v` with the pages of `chunk` reclaimed: a page without pins is released and
      zeroed, a page with pins goes over to `dest` with nothing left on it but its
      pinned objects. */
  function ReclaimedView(g: Geometry, v: View, chunk: set<nat>, pins: set<nat>, dest: Generation): View
    requires |v.starts| == |v.cells|
  {
    View(seq(|v.cells|, c requires 0 <= c < |v.cells| =>
           if Reclaims(v, chunk, c / PAGE_CELLS) && !InPinned(g, v, pins, c) then 0 else v.cells[c]),
         seq(|v.starts|, c requires 0 <= c < |v.starts| =>
           if Reclaims(v, chunk, c / PAGE_CELLS) && c !in pins then NoStart else v.starts[c]),
         seq(|v.descs|, p requires 0 <= p < |v.descs| =>
           if !Reclaims(v, chunk, p) then v.descs[p]
           else if v.descs[p].HasPins() then v.descs[p].(generation := dest)
           else FREE_DESC.(zeroed := true)))
  }

  lemma NothingReclaimed(g: Geometry, v: View, pins: set<nat>, dest: Generation)
    requires |v.starts| == |v.cells|
    ensures ReclaimedView(g, v, {}, pins, dest) == v
  {
  }

  /** The page tables after reclaiming one more page. */
  lemma ReclaimNext(g: Geometry, v0: View, done: set<nat>, pins: set<nat>, dest: Generation, p: nat, w: View)
    requires Shaped(g, v0) && p < |v0.descs| && p !in done && dest != Free && v0.descs[p].generation != Free
    requires var v := ReclaimedView(g, v0, done, pins, dest);
      && |w.cells| == |v.cells| && |w.starts| == |v.starts|
      && w.descs ==
            v.descs[p := if v0.descs[p].HasPins() then v0.descs[p].(generation := dest) else FREE_DESC.(zeroed := true)]
      && (forall c | 0 <= c < |w.cells| ::
            w.cells[c] == if c / PAGE_CELLS == p && !InPinned(g, v0, pins, c) then 0 else v.cells[c])
      && (forall c | 0 <= c < |w.starts| ::
            w.starts[c] == if c / PAGE_CELLS == p && c !in pins then NoStart else v.starts[c])
    ensures w == ReclaimedView(g, v0, done + {p}, pins, dest)
  {
    hide InPinned;
    var t := ReclaimedView(g, v0, done + {p}, pins, dest);
    assert w.cells == t.cells;
    assert w.starts == t.starts;
    assert w.descs == t.descs;
  }

  // -- Flipping a page ------------------------------------------------------

  predicate RangeHas(r: (nat, nat), c: nat) { r.0 <= c < r.0 + r.1 }

  predicate InSome(ranges: seq<(nat, nat)>, c: nat) {
    exists j :: 0 <= j < |ranges| && RangeHas(ranges[j], c)
  }

  /** `zero_page_outside_ranges`. */
  method ZeroOutsideRanges(h: PageHeap, p: nat, ranges: seq<(nat, nat)>)
    requires h.Valid() && p < h.nPages
    modifies h.cells
    ensures h.Valid()
    ensures h.V() == old(h.V()).(cells := h.V().cells)
    ensures forall c | 0 <= c < h.cells.Length ::
              h.cells[c] == if c / PAGE_CELLS == p && !InSome(ranges, c) then 0 else old(h.cells[c])
  {
    hide Starts, GeoOk;
    var first := PAGE_CELLS * p;
    var last := first + PAGE_CELLS;
    var c := first;
    while c < last
      invariant first <= c
      invariant forall x | 0 <= x < h.cells.Length ::
        h.cells[x] == if first <= x < c && x < last && !InSome(ranges, x) then 0 else old(h.cells[x])
      decreases last - c
    {
      var inside := FindRange(ranges, c);
      if inside.Some? {
        c := ranges[inside.value].0 + ranges[inside.value].1;
      } else {
        h.cells[c] := 0;
        c := c + 1;
      }
    }
  }

  method FindRange(ranges: seq<(nat, nat)>, c: nat) returns (r: Option<nat>)
    ensures r.Some? <==> InSome(ranges, c)
    ensures r.Some? ==> r.value < |ranges| && c < ranges[r.value].0 + ranges[r.value].1
    ensures r.Some? ==> forall x | c <= x < ranges[r.value].0 + ranges[r.value].1 :: InSome(ranges, x)
  {
    for j := 0 to |ranges|
      invariant forall i | 0 <= i < j :: !RangeHas(ranges[i], c)
    {
      if ranges[j].0 <= c < ranges[j].0 + ranges[j].1 {
        assert forall x | c <= x < ranges[j].0 + ranges[j].1 :: RangeHas(ranges[j], x);
        return Some(j);
      }
    }
    return None;
  }

  /** The pin snapshot taken before the pass lists every pinned object with its kind. */
  ghost predicate SnapshotOf(v: View, pins: set<nat>, pinned: seq<(nat, bool)>) {
    && (forall j | 0 <= j < |pinned| ::
          pinned[j].0 in pins && IsObj(v, pinned[j].0) && pinned[j].1 == (v.starts[pinned[j].0] == ConsStart))
    && (forall s | s in pins :: exists j :: 0 <= j < |pinned| && pinned[j].0 == s)
  }

  /** Pinned objects are well-formed and not forwarded. */
  ghost predicate PinsSolid(g: Geometry, v: View, pins: set<nat>)
    requires Shaped(g, v)
  {
    forall s | s in pins :: IsObj(v, s) && ObjOk(g, v, s)
  }

  /** `ranges` are the extents of the pinned objects of page `p`. */
  ghost predicate RangesOf(g: Geometry, v: View, pins: set<nat>, p: nat, ranges: seq<(nat, nat)>)
    requires Shaped(g, v)
  {
    && (forall j | 0 <= j < |ranges| :: ranges[j].0 in pins && ranges[j].0 / PAGE_CELLS == p
          && ranges[j].0 < |v.starts| && ranges[j].1 == SizeOf(g, v, ranges[j].0))
    && (forall s | s in pins && s / PAGE_CELLS == p && s < |v.starts| :: (s, SizeOf(g, v, s)) in ranges)
  }

  lemma RangesCover(g: Geometry, v: View, pins: set<nat>, p: nat, ranges: seq<(nat, nat)>, c: nat)
    requires Shaped(g, v) && PinsSolid(g, v, pins) && RangesOf(g, v, pins, p, ranges)
    requires c < |v.starts| && c / PAGE_CELLS == p
    ensures InSome(ranges, c) <==> InPinned(g, v, pins, c)
  {
    if InSome(ranges, c) {
      var j :| 0 <= j < |ranges| && RangeHas(ranges[j], c);
      var s := ranges[j].0;
      ExtentOwner(g, v, s, c - s);
    }
    if InPinned(g, v, pins, c) {
      var s := Owner(v.starts, c).value;
      assert (s, SizeOf(g, v, s)) in ranges;
      var j :| 0 <= j < |ranges| && ranges[j] == (s, SizeOf(g, v, s));
      assert RangeHas(ranges[j], c);
    }
  }

  /** The extents of the pinned objects on page `p`, read off before anything is cleared. */
  method PinnedRanges(h: PageHeap, p: nat, pinned: seq<(nat, bool)>) returns (ranges: seq<(nat, nat)>)
    requires h.Valid() && PinsSolid(h.Geo(), h.V(), h.pinnedCells) && SnapshotOf(h.V(), h.pinnedCells, pinned)
    ensures RangesOf(h.Geo(), h.V(), h.pinnedCells, p, ranges)
  {
    hide Starts, GeoOk, ObjOk;
    ghost var g, v := h.Geo(), h.V();
    ranges := [];
    for j := 0 to |pinned|
      invariant forall i | 0 <= i < |ranges| :: (
                  && ranges[i].0 in h.pinnedCells && ranges[i].0 / PAGE_CELLS == p
                  && ranges[i].0 < |v.starts| && ranges[i].1 == SizeOf(g, v, ranges[i].0))
      invariant forall i | 0 <= i < j && pinned[i].0 / PAGE_CELLS == p ::
                  (pinned[i].0, SizeOf(g, v, pinned[i].0)) in ranges
    {
      var (c, isCons) := pinned[j];
      if c / PAGE_CELLS != p { continue; }
      var size := if isCons then 2 else h.layout.headerLayout(h.cells[c]).totalCells;
      assert size == SizeOf(g, v, c);
      ranges := ranges + [(c, size)];
    }
  }

  /** Clears the starts of page `p` and sets those of its pinned objects again. */
  method RestoreStarts(h: PageHeap, p: nat, pinned: seq<(nat, bool)>)
    requires h.Valid() && p < h.nPages && SnapshotOf(h.V(), h.pinnedCells, pinned)
    modifies h.startTable.bits
    ensures h.Valid() && h.V() == old(h.V()).(starts := h.V().starts)
    ensures forall c | 0 <= c < |old(h.V()).starts| ::
              h.V().starts[c] == if c / PAGE_CELLS == p && c !in h.pinnedCells then NoStart else old(h.V()).starts[c]
  {
    hide Starts, GeoOk;
    ghost var v := h.V();
    h.ClearPageStarts(p);
    for j := 0 to |pinned|
      invariant h.Valid() && h.V() == v.(starts := h.V().starts) && |h.V().starts| == |v.starts|
      invariant forall c | 0 <= c < |v.starts| :: (
                  h.V().starts[c] == v.starts[c] || (h.V().starts[c] == NoStart && c / PAGE_CELLS == p))
      invariant forall c | 0 <= c < |v.starts| && c / PAGE_CELLS == p && c !in h.pinnedCells ::
                  h.V().starts[c] == NoStart
      invariant forall i | 0 <= i < j :: h.V().starts[pinned[i].0] == v.starts[pinned[i].0]
    {
      var (c, isCons) := pinned[j];
      assert IsObj(v, c);
      if c / PAGE_CELLS != p { continue; }
      if isCons {
        h.startTable.SetConsStart(c);
      } else {
        h.startTable.SetStart(c);
      }
    }
  }

  /** The cards of the ranges, all on page `p`, become dirty. */
  method CardRanges(h: PageHeap, p: nat, ranges: seq<(nat, nat)>)
    requires h.Valid() && forall j | 0 <= j < |ranges| ::
               ranges[j].1 >= 1 && ranges[j].0 + ranges[j].1 <= h.cells.Length
    requires forall j | 0 <= j < |ranges| ::
               ranges[j].0 / PAGE_CELLS == p && (ranges[j].0 + ranges[j].1 - 1) / PAGE_CELLS == p
    modifies h.cards
    ensures forall k | 0 <= k < h.cards.Length && k / CARDS_PER_PAGE != p :: h.cards[k] == old(h.cards[k])
    ensures forall k | 0 <= k < h.cards.Length && old(h.cards[k]) :: h.cards[k]
    ensures forall j | 0 <= j < |ranges| :: BlockCarded(h.cards[..], ranges[j].0, ranges[j].1)
    ensures forall k | 0 <= k < h.cards.Length && h.cards[k] && !old(h.cards[k]) ::
              exists j :: 0 <= j < |ranges| && CoversCard(ranges[j].0, ranges[j].1, k)
  {
    for j := 0 to |ranges|
      invariant forall k | 0 <= k < h.cards.Length && k / CARDS_PER_PAGE != p :: h.cards[k] == old(h.cards[k])
      invariant forall k | 0 <= k < h.cards.Length && old(h.cards[k]) :: h.cards[k]
      invariant forall i | 0 <= i < j :: BlockCarded(h.cards[..], ranges[i].0, ranges[i].1)
      invariant forall k | 0 <= k < h.cards.Length && h.cards[k] && !old(h.cards[k]) ::
                  exists i :: 0 <= i < j && CoversCard(ranges[i].0, ranges[i].1, k)
    {
      MarkCards(h, ranges[j].0, ranges[j].1);
    }
  }

  // -- Reclaiming a chunk ---------------------------------------------------

  /** Without a pin byte there is no pinned object on the page. */
  lemma NoPinsHere(g: Geometry, v: View, pins: set<nat>, c: nat)
    requires Shaped(g, v) && PinsOk(v, pins) && c < |v.starts| && !v.descs[c / PAGE_CELLS].HasPins()
    ensures c !in pins && !InPinned(g, v, pins, c)
  {
    hide Bit;
    if c in pins { PinBits(v.descs[c / PAGE_CELLS], 0, PinSlot(c)); }
    if InPinned(g, v, pins, c) {
      PinBits(v.descs[c / PAGE_CELLS], 0, PinSlot(Owner(v.starts, c).value));
    }
  }

  lemma ReclaimedMemory(g: Geometry, v: View, committed: seq<bool>, chunk: set<nat>, pins: set<nat>, dest: Generation)
    requires Shaped(g, v) && MemoryOk(v, committed) && PinsOk(v, pins) && dest != Free
    ensures MemoryOk(ReclaimedView(g, v, chunk, pins, dest), committed)
  {
    hide InPinned, PinsOk;
    var w := ReclaimedView(g, v, chunk, pins, dest);
    forall c | 0 <= c < |w.cells| ensures CellZeroIfUnused(w, committed, c) {
      assert CellZeroIfUnused(v, committed, c);
      if !v.descs[c / PAGE_CELLS].HasPins() { NoPinsHere(g, v, pins, c); }
    }
    forall c | 0 <= c < |w.starts| && IsObj(w, c)
      ensures c % PAGE_CELLS < w.descs[c / PAGE_CELLS].wordsUsed
              && (w.descs[c / PAGE_CELLS].kind == Cons ==> w.starts[c] == ConsStart)
    {
      assert IsObj(v, c);
    }
  }

  /** The tables `phase3_reclaim` works under. */
  ghost predicate ReclaimReady(g: Geometry, v: View, pins: set<nat>, pinned: seq<(nat, bool)>) {
    Shaped(g, v) && PinsOk(v, pins) && PinsSolid(g, v, pins) && SnapshotOf(v, pins, pinned)
  }

  lemma StillReady(g: Geometry, v: View, done: set<nat>, pins: set<nat>, pinned: seq<(nat, bool)>, dest: Generation)
    requires ReclaimReady(g, v, pins, pinned) && dest != Free
    ensures ReclaimReady(g, ReclaimedView(g, v, done, pins, dest), pins, pinned)
  {
    hide InPinned, ObjOk, ReclaimedView, LayoutAt;
    var w := ReclaimedView(g, v, done, pins, dest);
    ReclaimedShape(g, v, done, pins, dest);
    forall s | s in pins ensures IsObj(w, s) && w.starts[s] == v.starts[s] && ObjOk(g, w, s)
      && w.descs[s / PAGE_CELLS].IsPinned(PinSlot(s))
    {
      PinStays(g, v, done, pins, dest, s);
    }
  }

  lemma ReclaimedShape(g: Geometry, v: View, done: set<nat>, pins: set<nat>, dest: Generation)
    requires Shaped(g, v)
    ensures Shaped(g, ReclaimedView(g, v, done, pins, dest))
  {
  }

  /** A page not reclaimed yet is as it was. */
  lemma PageAsBefore(g: Geometry, v: View, done: set<nat>, pins: set<nat>, dest: Generation, p: nat)
    requires Shaped(g, v) && p < |v.descs| && p !in done
    ensures |ReclaimedView(g, v, done, pins, dest).descs| == |v.descs|
    ensures var w := ReclaimedView(g, v, done, pins, dest);
      && w.descs[p] == v.descs[p]
      && forall c | 0 <= c < |v.starts| && c / PAGE_CELLS == p :: (InPinned(g, w, pins, c) <==> InPinned(g, v, pins, c))
  {
    hide InPinned;
    var w := ReclaimedView(g, v, done, pins, dest);
    forall c: nat | c < |v.starts| && c / PAGE_CELLS == p ensures InPinned(g, w, pins, c) <==> InPinned(g, v, pins, c) {
      assert forall x: nat | c / PAGE_CELLS * PAGE_CELLS <= x <= c :: x / PAGE_CELLS == p;
      SameOwner(v.starts, w.starts, c);
      SameInPinned(g, v, w, pins, c);
    }
  }

  lemma SameInPinned(g: Geometry, v: View, w: View, pins: set<nat>, c: nat)
    requires Shaped(g, v) && Shaped(g, w) && c < |v.starts| && Owner(w.starts, c) == Owner(v.starts, c)
    requires forall x | c / PAGE_CELLS * PAGE_CELLS <= x <= c :: w.starts[x] == v.starts[x] && w.cells[x] == v.cells[x]
    ensures InPinned(g, w, pins, c) <==> InPinned(g, v, pins, c)
  {
  }

  lemma PinStays(g: Geometry, v: View, done: set<nat>, pins: set<nat>, dest: Generation, s: nat)
    requires Shaped(g, v) && PinsOk(v, pins) && PinsSolid(g, v, pins) && s in pins && dest != Free
    ensures var w := ReclaimedView(g, v, done, pins, dest);
      && Shaped(g, w) && IsObj(w, s) && w.starts[s] == v.starts[s] && w.cells[s] == v.cells[s] && ObjOk(g, w, s)
      && LayoutAt(g, w, s) == LayoutAt(g, v, s)
      && w.descs[s / PAGE_CELLS].IsPinned(PinSlot(s))
      && (forall c | s <= c < s + SizeOf(g, v, s) :: c < |v.cells| && w.cells[c] == v.cells[c])
  {
    hide Bit;
    assert IsObj(v, s) && ObjOk(g, v, s);
    PinBits(v.descs[s / PAGE_CELLS], 0, PinSlot(s));
    forall c | s <= c < s + SizeOf(g, v, s) ensures c < |v.cells| && InPinned(g, v, pins, c) {
      ExtentOwner(g, v, s, c - s);
    }
  }

  /** One page flipped: its pinned objects, and nothing else, go over to `dest`. */
  method FlipPage(h: PageHeap, p: nat, pinned: seq<(nat, bool)>, dest: Generation)
    requires h.Valid() && p < h.nPages && dest != Free && ReclaimReady(h.Geo(), h.V(), h.pinnedCells, pinned)
    modifies h`descs, h.cells, h.startTable.bits, h.cards
    ensures h.Valid()
    ensures h.descs == old(h.descs)[p := old(h.descs)[p].(generation := dest)]
    ensures forall c | 0 <= c < |old(h.V()).cells| :: h.V().cells[c] ==
              if c / PAGE_CELLS == p && !InPinned(h.Geo(), old(h.V()), h.pinnedCells, c) then 0 else old(h.V()).cells[c]
    ensures forall c | 0 <= c < |old(h.V()).starts| :: h.V().starts[c] ==
              if c / PAGE_CELLS == p && c !in h.pinnedCells then NoStart else old(h.V()).starts[c]
    ensures forall k | 0 <= k < h.cards.Length && old(h.cards[k]) :: h.cards[k]
    ensures forall k | 0 <= k < h.cards.Length && k / CARDS_PER_PAGE != p :: h.cards[k] == old(h.cards[k])
    ensures forall s | s in h.pinnedCells && s / PAGE_CELLS == p && s < |old(h.V()).starts| ::
              BlockCarded(h.cards[..], s, SizeOf(h.Geo(), old(h.V()), s))
    ensures forall k | 0 <= k < h.cards.Length && h.cards[k] && !old(h.cards[k]) ::
              PinCovers(h.Geo(), old(h.V()), h.pinnedCells, p, k)
  {
    hide Starts, GeoOk, ObjOk, InPinned, IsObj, PinsOk, BlockCarded, LayoutAt, SizeOf, WellPaired, CoversCard,
      PinCovers;
    ghost var g, v, pins := h.Geo(), h.V(), h.pinnedCells;
    var ranges := PinnedRanges(h, p, pinned);
    RangesFit(g, v, pins, p, ranges);
    h.descs := h.descs[p := h.descs[p].(generation := dest)];
    SnapshotAfter(v, h.V(), pins, pinned, p, dest);
    RestoreStarts(h, p, pinned);
    ZeroOutsideRanges(h, p, ranges);
    CardRanges(h, p, ranges);
    RangesOnPins(g, v, pins, p, ranges);
    forall c: nat | c < |v.cells| && c / PAGE_CELLS == p ensures InSome(ranges, c) <==> InPinned(g, v, pins, c) {
      RangesCover(g, v, pins, p, ranges, c);
    }
  }

  /** Card `k` lies under a pinned object of page `p`. */
  ghost predicate PinCovers(g: Geometry, v: View, pins: set<nat>, p: nat, k: nat)
    requires |v.starts| == |v.cells|
  {
    exists s :: s in pins && s < |v.starts| && s / PAGE_CELLS == p && CoversCard(s, SizeOf(g, v, s), k)
  }

  lemma RangesOnPins(g: Geometry, v: View, pins: set<nat>, p: nat, ranges: seq<(nat, nat)>)
    requires Shaped(g, v) && PinsSolid(g, v, pins) && RangesOf(g, v, pins, p, ranges)
    ensures forall j, k: nat | 0 <= j < |ranges| && CoversCard(ranges[j].0, ranges[j].1, k) ::
              PinCovers(g, v, pins, p, k)
  {
  }

  lemma SnapshotAfter(v: View, w: View, pins: set<nat>, pinned: seq<(nat, bool)>, p: nat, dest: Generation)
    requires SnapshotOf(v, pins, pinned) && p < |v.descs| && dest != Free
    requires w == v.(descs := v.descs[p := v.descs[p].(generation := dest)])
    ensures SnapshotOf(w, pins, pinned)
  {
  }

  lemma RangesFit(g: Geometry, v: View, pins: set<nat>, p: nat, ranges: seq<(nat, nat)>)
    requires Shaped(g, v) && PinsSolid(g, v, pins) && RangesOf(g, v, pins, p, ranges)
    ensures forall j | 0 <= j < |ranges| :: ranges[j].1 >= 1 && ranges[j].0 + ranges[j].1 <= |v.cells|
    ensures forall j | 0 <= j < |ranges| ::
              ranges[j].0 / PAGE_CELLS == p && (ranges[j].0 + ranges[j].1 - 1) / PAGE_CELLS == p
  {
    forall j | 0 <= j < |ranges|
      ensures ranges[j].1 >= 1 && ranges[j].0 + ranges[j].1 <= |v.cells|
      ensures (ranges[j].0 + ranges[j].1 - 1) / PAGE_CELLS == p
    {
      var s := ranges[j].0;
      assert ObjOk(g, v, s);
      ExtentOwner(g, v, s, SizeOf(g, v, s) - 1);
    }
  }

  /** One page released: zeroed, without starts, on the free list. */
  method ReleasePage(h: PageHeap, p: nat)
    requires h.Valid() && p < h.nPages
    modifies h`descs, h`freeList, h.cells, h.startTable.bits
    ensures h.Valid()
    ensures h.V() == View(ClearedOn(old(h.V()).cells, p, 0), ClearedOn(old(h.V()).starts, p, NoStart),
                          old(h.descs)[p := FREE_DESC.(zeroed := true)])
    ensures h.freeList == old(h.freeList) + [p]
  {
    hide Starts, GeoOk, WellPaired;
    ReleasePageToFree(h, p, true);
    h.ClearPageStarts(p);
    h.ZeroPage(p);
  }

  /** The pages of a list. */
  function Members(list: seq<nat>): set<nat> { set p | p in list }

  /** The chunk's pages before index `i`. */
  function Before(chunk: seq<nat>, i: nat): set<nat>
    requires i <= |chunk|
  {
    set p | p in chunk[..i]
  }

  /** The cards that are dirty now are those that were and those under pinned objects on reclaimed pages. */
  ghost predicate PinsCarded(g: Geometry, v: View, pins: set<nat>, done: set<nat>, before: seq<bool>, after: seq<bool>)
    requires |v.starts| == |v.cells|
  {
    && |before| == |after|
    && (forall k | 0 <= k < |before| && before[k] :: after[k])
    && (forall s | s in pins && s < |v.starts| && Reclaims(v, done, s / PAGE_CELLS) ::
          BlockCarded(after, s, SizeOf(g, v, s)))
    && (forall k | 0 <= k < |before| && after[k] && !before[k] ::
          exists p :: Reclaims(v, done, p) && PinCovers(g, v, pins, p, k))
  }

  lemma BeforeNext(chunk: seq<nat>, i: nat)
    requires i < |chunk| && forall i, j | 0 <= i < j < |chunk| :: chunk[i] != chunk[j]
    ensures Before(chunk, i + 1) == Before(chunk, i) + {chunk[i]} && chunk[i] !in Before(chunk, i)
  {
    assert chunk[..i + 1] == chunk[..i] + [chunk[i]];
    forall x | x in chunk[..i] ensures x != chunk[i] {
      var j :| 0 <= j < i && chunk[..i][j] == x;
      assert chunk[j] == x;
    }
  }

  lemma BeforeNone(chunk: seq<nat>)
    ensures Before(chunk, 0) == {}
  {
  }

  lemma CardedStart(g: Geometry, v: View, pins: set<nat>, cards: seq<bool>, chunk: seq<nat>)
    requires |v.starts| == |v.cells|
    ensures Before(chunk, 0) == {} && PinsCarded(g, v, pins, Before(chunk, 0), cards, cards)
  {
    BeforeNone(chunk);
  }

  lemma SealedAt(descs: seq<PageDesc>, regions: seq<AllocRegion>, closed: set<nat>, p: nat)
    requires |regions| == 6 && Sealed(descs, regions, closed) && p in closed
    ensures p < |descs| && descs[p].generation != Free
  {
  }

  lemma ReadyFacts(g: Geometry, v: View, pins: set<nat>, pinned: seq<(nat, bool)>)
    requires ReclaimReady(g, v, pins, pinned)
    ensures Shaped(g, v) && PinsOk(v, pins) && PinsSolid(g, v, pins)
  {
  }

  lemma FlippedIs(g: Geometry, v0: View, done: set<nat>, pins: set<nat>, dest: Generation, p: nat, w: View)
    requires Shaped(g, v0) && p < |v0.descs| && p !in done && dest != Free && v0.descs[p].generation != Free
    requires v0.descs[p].HasPins()
    requires var v := ReclaimedView(g, v0, done, pins, dest);
      && |w.cells| == |v.cells| && |w.starts| == |v.starts| && w.descs == v.descs[p := v.descs[p].(generation := dest)]
      && (forall c | 0 <= c < |v.cells| ::
            w.cells[c] == if c / PAGE_CELLS == p && !InPinned(g, v, pins, c) then 0 else v.cells[c])
      && (forall c | 0 <= c < |v.starts| ::
            w.starts[c] == if c / PAGE_CELLS == p && c !in pins then NoStart else v.starts[c])
    ensures w == ReclaimedView(g, v0, done + {p}, pins, dest)
  {
    hide InPinned, ReclaimedView;
    PageAsBefore(g, v0, done, pins, dest, p);
    ReclaimedShape(g, v0, done, pins, dest);
    ReclaimNext(g, v0, done, pins, dest, p, w);
  }

  lemma ReleasedIs(g: Geometry, v0: View, done: set<nat>, pins: set<nat>, dest: Generation, p: nat, w: View)
    requires Shaped(g, v0) && PinsOk(v0, pins) && p < |v0.descs| && p !in done && dest != Free
    requires v0.descs[p].generation != Free && !v0.descs[p].HasPins()
    requires var v := ReclaimedView(g, v0, done, pins, dest);
      w == View(ClearedOn(v.cells, p, 0), ClearedOn(v.starts, p, NoStart), v.descs[p := FREE_DESC.(zeroed := true)])
    ensures w == ReclaimedView(g, v0, done + {p}, pins, dest)
  {
    hide InPinned, ReclaimedView, PinsOk;
    ReclaimedShape(g, v0, done, pins, dest);
    forall c: nat | c < |v0.starts| && c / PAGE_CELLS == p ensures c !in pins && !InPinned(g, v0, pins, c) {
      NoPinsHere(g, v0, pins, c);
    }
    ReclaimNext(g, v0, done, pins, dest, p, w);
  }

  lemma FlippedCarded(g: Geometry, v0: View, pins: set<nat>, done: set<nat>, p: nat, dest: Generation,
                      cards0: seq<bool>, cards: seq<bool>, cards': seq<bool>)
    requires Shaped(g, v0) && PinsOk(v0, pins) && PinsSolid(g, v0, pins) && dest != Free && p < |v0.descs|
    requires PinsCarded(g, v0, pins, done, cards0, cards) && |cards'| == |cards|
    requires forall k | 0 <= k < |cards| && cards[k] :: cards'[k]
    requires var v := ReclaimedView(g, v0, done, pins, dest);
      && |v.starts| == |v.cells|
      && (forall s | s in pins && s / PAGE_CELLS == p && s < |v.starts| :: BlockCarded(cards', s, SizeOf(g, v, s)))
      && (forall k | 0 <= k < |cards| && cards'[k] && !cards[k] :: PinCovers(g, v, pins, p, k))
    requires v0.descs[p].generation != Free
    ensures PinsCarded(g, v0, pins, done + {p}, cards0, cards')
  {
    hide ReclaimedView, ObjOk, PinsSolid, PinsOk, SizeOf, LayoutAt, CoversCard;
    forall k | 0 <= k < |cards0| && cards'[k] && !cards0[k]
      ensures exists q :: Reclaims(v0, done + {p}, q) && PinCovers(g, v0, pins, q, k)
    {
      if cards[k] {
        var q :| Reclaims(v0, done, q) && PinCovers(g, v0, pins, q, k);
        assert Reclaims(v0, done + {p}, q);
      } else {
        var v := ReclaimedView(g, v0, done, pins, dest);
        var s :| s in pins && s < |v.starts| && s / PAGE_CELLS == p && CoversCard(s, SizeOf(g, v, s), k);
        PinStays(g, v0, done, pins, dest, s);
        SizeFromLayout(g, v0, v, s);
        assert Reclaims(v0, done + {p}, p) && PinCovers(g, v0, pins, p, k);
      }
    }
    forall s | s in pins && s < |v0.starts| && Reclaims(v0, done + {p}, s / PAGE_CELLS)
      ensures BlockCarded(cards', s, SizeOf(g, v0, s))
    {
      if s / PAGE_CELLS == p {
        PinStays(g, v0, done, pins, dest, s);
        SizeFromLayout(g, v0, ReclaimedView(g, v0, done, pins, dest), s);
      }
    }
  }

  lemma SizeFromLayout(g: Geometry, v: View, w: View, s: nat)
    requires s < |v.starts| == |v.cells| && s < |w.starts| == |w.cells| && LayoutAt(g, v, s) == LayoutAt(g, w, s)
    ensures SizeOf(g, v, s) == SizeOf(g, w, s)
  {
  }

  lemma ReleasedCarded(g: Geometry, v0: View, pins: set<nat>, done: set<nat>, p: nat, dest: Generation,
                       cards0: seq<bool>, cards: seq<bool>)
    requires Shaped(g, v0) && PinsOk(v0, pins) && p < |v0.descs| && !v0.descs[p].HasPins()
    requires PinsCarded(g, v0, pins, done, cards0, cards)
    ensures PinsCarded(g, v0, pins, done + {p}, cards0, cards)
  {
    hide PinsOk;
    forall s | s in pins && s < |v0.starts| && Reclaims(v0, done + {p}, s / PAGE_CELLS)
      ensures BlockCarded(cards, s, SizeOf(g, v0, s))
    {
      if s / PAGE_CELLS == p { NoPinsHere(g, v0, pins, s); }
    }
  }

  lemma ReclaimedTables(d0: seq<PageDesc>, committed: seq<bool>, highWater: nat, regions: seq<AllocRegion>,
                        closed: set<nat>, closed': set<nat>, p: nat, dest: Generation, d1: seq<PageDesc>,
                        free0: seq<nat>, free1: seq<nat>)
    requires |d0| == |committed| && |regions| == 6 && PagesOk(d0, committed, free0, highWater) && RegionsOk(d0, regions)
    requires Sealed(d0, regions, closed) && p in closed && dest != Free && p < |d0|
    requires || (d1 == d0[p := d0[p].(generation := dest)] && free1 == free0 && closed' == closed)
             || (d1 == d0[p := FREE_DESC.(zeroed := true)] && free1 == free0 + [p] && closed' == closed - {p})
    ensures PagesOk(d1, committed, free1, highWater) && RegionsOk(d1, regions)
    ensures Sealed(d1, regions, closed')
  {
    forall i | 0 <= i < 6 && regions[i].currentPage.Some?
      ensures RegionOk(d1, regions[i], RegionGen(i), RegionKind(i)) {
      assert RegionOk(d0, regions[i], RegionGen(i), RegionKind(i));
    }
  }

  /** `phase3_reclaim`: the chunk's pages, none of which is open for allocation. */
  method ReclaimChunk(h: PageHeap, dest: Generation, chunk: seq<nat>, pinned: seq<(nat, bool)>, ghost closed: set<nat>)
    returns (released: nat, flipped: nat)
    requires h.Inv() && dest != Free && NoLarge(h.V())
    requires ReclaimReady(h.Geo(), h.V(), h.pinnedCells, pinned)
    requires Sealed(h.descs, h.regions, closed)
    requires (forall i | 0 <= i < |chunk| :: chunk[i] in closed)
    requires (forall i, j | 0 <= i < j < |chunk| :: chunk[i] != chunk[j])
    modifies h`descs, h`freeList, h.cells, h.startTable.bits, h.cards
    ensures h.Inv() && Sealed(h.descs, h.regions, closed - Members(Unpinned(old(h.descs), chunk)))
    ensures h.V() == ReclaimedView(h.Geo(), old(h.V()), Before(chunk, |chunk|), h.pinnedCells, dest)
    ensures PinsCarded(h.Geo(), old(h.V()), h.pinnedCells, Before(chunk, |chunk|), old(h.cards[..]), h.cards[..])
    ensures released == |Unpinned(old(h.descs), chunk)| && released + flipped == |chunk|
    ensures h.freeList == old(h.freeList) + Unpinned(old(h.descs), chunk)
  {
    hide Starts, GeoOk, InPinned, IsObj, PinsOk, WellPaired, ReclaimedView, MemoryOk, PagesOk, RegionsOk, Sealed,
      ReclaimReady, PinsCarded, Before, BlockCarded, CardsClean, Unpinned;
    ghost var g, v0, pins, cards0 := h.Geo(), h.V(), h.pinnedCells, h.cards[..];
    released, flipped := 0, 0;
    NothingReclaimed(g, v0, pins, dest);
    ReadyFacts(g, v0, pins, pinned);
    CardedStart(g, v0, pins, cards0, chunk);
    UnpinnedNone(v0.descs, chunk);
    assert closed - {} == closed;
    for i := 0 to |chunk|
      invariant h.Valid() && PagesOk(h.descs, h.committed, h.freeList, h.highWater) && RegionsOk(h.descs, h.regions)
      invariant h.V() == ReclaimedView(g, v0, Before(chunk, i), pins, dest)
      invariant Sealed(h.descs, h.regions, closed - Members(Unpinned(v0.descs, chunk[..i])))
      invariant PinsCarded(g, v0, pins, Before(chunk, i), cards0, h.cards[..])
      invariant released == |Unpinned(v0.descs, chunk[..i])| && released + flipped == i
      invariant CardsClean(h.cards[..], h.highWater)
      invariant h.freeList == old(h.freeList) + Unpinned(v0.descs, chunk[..i])
    {
      var p := chunk[i];
      ghost var v, cards, free := h.V(), h.cards[..], h.freeList;
      ghost var gone := closed - Members(Unpinned(v0.descs, chunk[..i]));
      BeforeNext(chunk, i);
      NotYetGone(v0.descs, closed, chunk, i);
      SealedAt(h.descs, h.regions, gone, p);
      StillReady(g, v0, Before(chunk, i), pins, pinned, dest);
      PageAsBefore(g, v0, Before(chunk, i), pins, dest, p);
      if h.descs[p].HasPins() {
        FlipPage(h, p, pinned, dest);
        FlippedCarded(g, v0, pins, Before(chunk, i), p, dest, cards0, cards, h.cards[..]);
        FlippedIs(g, v0, Before(chunk, i), pins, dest, p, h.V());
        flipped := flipped + 1;
      } else {
        ReleasePage(h, p);
        ReleasedCarded(g, v0, pins, Before(chunk, i), p, dest, cards0, cards);
        ReleasedIs(g, v0, Before(chunk, i), pins, dest, p, h.V());
        released := released + 1;
      }
      StillClean(v.descs, h.committed, free, h.highWater, p, cards, h.cards[..]);
      UnpinnedNext(v0.descs, chunk, i);
      ghost var gone' := closed - Members(Unpinned(v0.descs, chunk[..i + 1]));
      ReclaimedTables(v.descs, h.committed, h.highWater, h.regions, gone, gone', p, dest, h.descs, free, h.freeList);
    }
    ReclaimedMemory(g, v0, h.committed, Before(chunk, |chunk|), pins, dest);
    assert chunk[..|chunk|] == chunk;
  }

  /** The pages of the chunk without a pin byte, which are released, in their order. */
  function Unpinned(descs: seq<PageDesc>, chunk: seq<nat>): (r: seq<nat>)
    ensures forall p :: p in r <==> p in chunk && !(p < |descs| && descs[p].HasPins())
  {
    if chunk == [] then [] else
      var n := |chunk| - 1;
      assert chunk == chunk[..n] + [chunk[n]];
      Unpinned(descs, chunk[..n])
      + if chunk[n] < |descs| && descs[chunk[n]].HasPins() then [] else [chunk[n]]
  }

  lemma UnpinnedNone(descs: seq<PageDesc>, chunk: seq<nat>)
    ensures Unpinned(descs, chunk[..0]) == [] && Members(Unpinned(descs, chunk[..0])) == {}
  {
    assert chunk[..0] == [];
  }

  /** The pages still to come are not among those released. */
  lemma NotYetGone(descs: seq<PageDesc>, closed: set<nat>, chunk: seq<nat>, i: nat)
    requires i < |chunk| && (forall i, j | 0 <= i < j < |chunk| :: chunk[i] != chunk[j]) && chunk[i] in closed
    ensures chunk[i] in closed - Members(Unpinned(descs, chunk[..i]))
    ensures closed - Members(Unpinned(descs, chunk[..i + 1])) ==
            closed - Members(Unpinned(descs, chunk[..i]))
            - if chunk[i] < |descs| && descs[chunk[i]].HasPins() then {} else {chunk[i]}
  {
    hide Unpinned;
    UnpinnedNext(descs, chunk, i);
    assert chunk[i] !in chunk[..i];
  }

  lemma UnpinnedNext(descs: seq<PageDesc>, chunk: seq<nat>, i: nat)
    requires i < |chunk|
    ensures Unpinned(descs, chunk[..i + 1]) ==
            Unpinned(descs, chunk[..i]) + if chunk[i] < |descs| && descs[chunk[i]].HasPins() then [] else [chunk[i]]
  {
    assert chunk[..i + 1][..i] == chunk[..i];
  }

  /** Dirtying cards of a page in use keeps the cards above the high-water mark clean. */
  lemma StillClean(descs: seq<PageDesc>, committed: seq<bool>, freeList: seq<nat>, highWater: nat, p: nat,
                   cards: seq<bool>, cards': seq<bool>)
    requires |descs| == |committed| && PagesOk(descs, committed, freeList, highWater) && CardsClean(cards, highWater)
    requires p < |descs| && descs[p].generation != Free && |cards'| == |cards|
    requires forall k | 0 <= k < |cards| && k / CARDS_PER_PAGE != p :: cards'[k] == cards[k]
    ensures CardsClean(cards', highWater)
  {
  }
}
