/** The object-aware card scan and the card table rebuild. */
module Cards {
  import opened Options
  import opened Bitmaps
  import opened Layouts
  import opened Pages
  import opened Objects
  import opened PageHeaps
  import opened Marking

  // -- Which cells a card scan visits ---------------------------------------

  /** The pointer cells of the object at `s`. */
  function PtrCells(g: Geometry, v: View, s: nat): set<nat>
    requires s < |v.starts| && s < |v.cells|
  {
    set c: nat {:trigger PtrCellOf(g, v, s, c)} |
      s + LayoutAt(g, v, s).ptrStart <= c < s + LayoutAt(g, v, s).ptrEnd && PtrCellOf(g, v, s, c)
  }

  /** The walk of `visit_card_pointer_cells` from `s` up to `end`: objects that
      follow each other without a gap. */
  function WalkVisits(g: Geometry, v: View, s: nat, end: nat): set<nat>
    requires end <= |v.starts| == |v.cells|
    decreases end - s
  {
    if s >= end || v.starts[s] == NoStart then {}
    else PtrCells(g, v, s) + (if SizeOf(g, v, s) == 0 then {} else WalkVisits(g, v, s + SizeOf(g, v, s), end))
  }

  /** The first start in `[t, end)`, or `end`. */
  function NextStart(starts: seq<Start>, t: nat, end: nat): (s: nat)
    requires t <= end <= |starts|
    ensures t <= s <= end && (s < end ==> starts[s] != NoStart)
    ensures forall x | t <= x < s :: starts[x] == NoStart
    decreases end - t
  {
    if t == end || starts[t] != NoStart then t else NextStart(starts, t + 1, end)
  }

  /** Where the scan of the card `[start, end)` begins: at the object covering the
      card's first cell, else at the first start inside the card. */
  function WalkStart(starts: seq<Start>, start: nat, end: nat): (s: nat)
    requires start < end <= |starts|
  {
    var o := Owner(starts, start);
    if o.Some? then o.value else NextStart(starts, start, end)
  }

  /** The cells the object-aware scan of card `k` visits. */
  function CardVisits(g: Geometry, v: View, k: nat): set<nat>
    requires Shaped(g, v) && k < CARDS_PER_PAGE * g.nPages
  {
    if GenAt(v, CARD_CELLS * k) == Free then {}
    else WalkVisits(g, v, WalkStart(v.starts, CARD_CELLS * k, CARD_CELLS * (k + 1)), CARD_CELLS * (k + 1))
  }

  /** Cell `x` lies inside the extent of an object. */
  predicate Covered(g: Geometry, v: View, x: nat)
    requires x < |v.starts| == |v.cells|
  {
    var o := Owner(v.starts, x);
    o.Some? && x < o.value + SizeOf(g, v, o.value)
  }

  /** Objects fill page `p` up to its fill level, without gaps. */
  ghost predicate Tiled(g: Geometry, v: View, p: nat)
    requires Shaped(g, v) && p < |v.descs|
  {
    forall c: nat | c < |v.starts| && c / PAGE_CELLS == p && c % PAGE_CELLS < v.descs[p].wordsUsed :: Covered(g, v, c)
  }

  ghost predicate GapFree(g: Geometry, v: View)
    requires Shaped(g, v)
  {
    forall p | 0 <= p < |v.descs| :: Tiled(g, v, p)
  }

  /** `c` is a pointer cell of the object that owns it. */
  predicate PtrCellAt(g: Geometry, v: View, c: nat)
    requires c < |v.starts| == |v.cells|
  {
    var o := Owner(v.starts, c);
    o.Some? && c / PAGE_CELLS < |v.descs| && GenAt(v, c) != Free && c in PtrCells(g, v, o.value)
  }

  // -- The walk, from any start of a well-formed page -----------------------

  /** A page all of whose objects are whole, forwarded or not. */
  ghost predicate PageOk(g: Geometry, v: View, p: nat)
    requires Shaped(g, v)
  {
    forall s: nat | s < |v.starts| && s / PAGE_CELLS == p && IsObj(v, s) :: Whole(g, v, s)
  }

  /** Every object the walk from `s` meets is whole. */
  ghost predicate WalkWhole(g: Geometry, v: View, s: nat, end: nat)
    requires Shaped(g, v) && end <= |v.starts|
    decreases end - s
  {
    s < end && v.starts[s] != NoStart ==> Whole(g, v, s) && WalkWhole(g, v, s + SizeOf(g, v, s), end)
  }

  ghost predicate CardWhole(g: Geometry, v: View, k: nat)
    requires Shaped(g, v) && k < CARDS_PER_PAGE * g.nPages
  {
    GenAt(v, CARD_CELLS * k) != Free ==>
      WalkWhole(g, v, WalkStart(v.starts, CARD_CELLS * k, CARD_CELLS * (k + 1)), CARD_CELLS * (k + 1))
  }

  lemma {:induction false} PageWalk(g: Geometry, v: View, p: nat, s: nat, end: nat)
    requires Shaped(g, v) && PageOk(g, v, p) && end <= |v.starts| && end <= PAGE_CELLS * (p + 1)
    requires s < end ==> s / PAGE_CELLS == p && GenAt(v, s) != Free
    ensures WalkWhole(g, v, s, end)
    decreases end - s
  {
    if s < end && v.starts[s] != NoStart {
      assert IsObj(v, s) && Whole(g, v, s);
      PageWalk(g, v, p, s + SizeOf(g, v, s), end);
    }
  }

  lemma HeapCardWhole(g: Geometry, v: View, k: nat)
    requires HeapOk(g, v) && k < CARDS_PER_PAGE * g.nPages
    ensures CardWhole(g, v, k)
  {
    CardOnPage(k);
    if GenAt(v, CARD_CELLS * k) == Free { return; }
    PageWalk(g, v, k / CARDS_PER_PAGE, WalkStart(v.starts, CARD_CELLS * k, CARD_CELLS * (k + 1)), CARD_CELLS * (k + 1));
  }

  lemma PtrOwner(g: Geometry, v: View, s: nat, c: nat)
    requires Shaped(g, v) && IsObj(v, s) && Whole(g, v, s)
    ensures c in PtrCells(g, v, s) ==>
              c < |v.starts| && c / PAGE_CELLS == s / PAGE_CELLS && Owner(v.starts, c) == Some(s)
  {
    if c in PtrCells(g, v, s) { ExtentOwner(g, v, s, c - s); }
  }

  /** The walk visits pointer cells only: never a header, never opaque payload. */
  lemma {:induction false} WalkVisitsPtrs(g: Geometry, v: View, p: nat, s: nat, end: nat)
    requires Shaped(g, v) && end <= |v.starts| && end <= PAGE_CELLS * (p + 1) && WalkWhole(g, v, s, end)
    requires s < end ==> s / PAGE_CELLS == p && GenAt(v, s) != Free
    ensures forall c | c in WalkVisits(g, v, s, end) ::
              c < |v.starts| && c / PAGE_CELLS == p && PtrCellAt(g, v, c)
    decreases end - s
  {
    if s < end && v.starts[s] != NoStart {
      assert IsObj(v, s) && Whole(g, v, s);
      forall c | c in PtrCells(g, v, s) ensures c < |v.starts| && c / PAGE_CELLS == p && PtrCellAt(g, v, c) {
        PtrOwner(g, v, s, c);
      }
      var t := s + SizeOf(g, v, s);
      if t < end {
        assert t / PAGE_CELLS == s / PAGE_CELLS;
      }
      WalkVisitsPtrs(g, v, p, t, end);
    }
  }

  /** From the object at `s`, the walk reaches the pointer cells of the object at
      `t` exactly when no uncovered cell lies between the two. */
  lemma {:induction false} WalkReaches(g: Geometry, v: View, s: nat, t: nat, c: nat, end: nat)
    requires Shaped(g, v) && end <= |v.starts| && PageOk(g, v, s / PAGE_CELLS)
    requires s <= t < end && s / PAGE_CELLS == t / PAGE_CELLS
    requires IsObj(v, s) && IsObj(v, t) && c in PtrCells(g, v, t)
    ensures c in WalkVisits(g, v, s, end) <==> (forall x | s <= x < t :: Covered(g, v, x))
    decreases t - s
  {
    hide Covered, Whole, SizeOf, PtrCells;
    if s < t {
      assert Whole(g, v, s) && Whole(g, v, t);
      WalkOver(g, v, s, t, c);
      var u := s + SizeOf(g, v, s);
      if v.starts[u] != NoStart {
        WalkReaches(g, v, u, t, c, end);
      }
    }
  }

  /** Walking over the object at `s` towards the one at `t`. */
  lemma WalkOver(g: Geometry, v: View, s: nat, t: nat, c: nat)
    requires Shaped(g, v) && IsObj(v, s) && IsObj(v, t) && Whole(g, v, s) && Whole(g, v, t)
    requires s < t && s / PAGE_CELLS == t / PAGE_CELLS
    ensures SizeOf(g, v, s) >= 1 && s + SizeOf(g, v, s) <= t
    ensures forall x | s <= x < s + SizeOf(g, v, s) :: Covered(g, v, x)
    ensures v.starts[s + SizeOf(g, v, s)] == NoStart ==> !Covered(g, v, s + SizeOf(g, v, s))
    ensures c in PtrCells(g, v, t) ==> c !in PtrCells(g, v, s)
  {
    var u := s + SizeOf(g, v, s);
    forall x | s <= x < u ensures Covered(g, v, x) { ExtentOwner(g, v, s, x - s); }
    PtrOwner(g, v, s, c);
    PtrOwner(g, v, t, c);
    if v.starts[u] == NoStart { OwnerIs(v.starts, s, u); }
  }

  // -- Whole cards ----------------------------------------------------------

  /** On any card whose objects are whole the scan visits only pointer cells of objects: never
      a header and never an opaque payload cell. */
  lemma CardVisitsPtrs(g: Geometry, v: View, k: nat, c: nat)
    requires Shaped(g, v) && k < CARDS_PER_PAGE * g.nPages && CardWhole(g, v, k)
    requires c in CardVisits(g, v, k)
    ensures c < |v.starts| && PtrCellAt(g, v, c) && c / PAGE_CELLS == k / CARDS_PER_PAGE
  {
    var start, end := CARD_CELLS * k, CARD_CELLS * (k + 1);
    CardOnPage(k);
    var s := WalkStart(v.starts, start, end);
    WalkVisitsPtrs(g, v, k / CARDS_PER_PAGE, s, end);
  }

  lemma CardOnPage(k: nat)
    ensures (CARD_CELLS * k) / PAGE_CELLS == k / CARDS_PER_PAGE
    ensures (CARD_CELLS * (k + 1) - 1) / PAGE_CELLS == k / CARDS_PER_PAGE
    ensures forall x | CARD_CELLS * k <= x < CARD_CELLS * (k + 1) :: x / PAGE_CELLS == k / CARDS_PER_PAGE
  {
  }

  /** Exactly which pointer cells of card `k` the scan visits: those whose object is
      reached from the object covering the card's first cell (or the first object
      in the card) without crossing an uncovered cell. */
  lemma CardScanExact(g: Geometry, v: View, k: nat, c: nat)
    requires Shaped(g, v) && k < CARDS_PER_PAGE * g.nPages && PageOk(g, v, k / CARDS_PER_PAGE)
    requires CARD_CELLS * k <= c < CARD_CELLS * (k + 1) && PtrCellAt(g, v, c)
    ensures c in CardVisits(g, v, k) <==>
              forall x | WalkStart(v.starts, CARD_CELLS * k, CARD_CELLS * (k + 1)) <= x < Owner(v.starts, c).value ::
                Covered(g, v, x)
  {
    var start, end := CARD_CELLS * k, CARD_CELLS * (k + 1);
    CardOnPage(k);
    var t := Owner(v.starts, c).value;
    var s := WalkStart(v.starts, start, end);
    assert s <= t && v.starts[s] != NoStart;
    WalkReaches(g, v, s, t, c, end);
  }

  /** Where objects tile the page up to its fill level, the scan of a card visits
      every pointer cell in the card, also those of an object that starts before it. */
  lemma CardScanComplete(g: Geometry, v: View, k: nat, c: nat)
    requires HeapOk(g, v) && k < CARDS_PER_PAGE * g.nPages && Tiled(g, v, k / CARDS_PER_PAGE)
    requires CARD_CELLS * k <= c < CARD_CELLS * (k + 1) && PtrCellAt(g, v, c)
    ensures c in CardVisits(g, v, k)
  {
    CardScanExact(g, v, k, c);
    CardOnPage(k);
    var t := Owner(v.starts, c).value;
    assert IsObj(v, t) && ObjOk(g, v, t);
    var s := WalkStart(v.starts, CARD_CELLS * k, CARD_CELLS * (k + 1));
    assert Tiled(g, v, t / PAGE_CELLS);
    forall x | s <= x < t ensures Covered(g, v, x) {
      assert x / PAGE_CELLS == t / PAGE_CELLS && x % PAGE_CELLS < t % PAGE_CELLS;
    }
  }

  // -- What a card scan depends on ------------------------------------------

  /** `v` and `w` have the same objects, with the same layouts, on page `p`. */
  ghost predicate SamePage(g: Geometry, v: View, w: View, p: nat) {
    && Shaped(g, v) && Shaped(g, w) && p < g.nPages
    && v.descs[p].generation != Free && w.descs[p].generation != Free
    && (forall c: nat | c < |v.starts| && c / PAGE_CELLS == p :: w.starts[c] == v.starts[c])
    && (forall c: nat | c < |v.starts| && c / PAGE_CELLS == p && v.starts[c] != NoStart ::
          LayoutAt(g, w, c) == LayoutAt(g, v, c))
  }

  lemma SamePtrCells(g: Geometry, v: View, w: View, s: nat)
    requires s < |v.starts| && s < |v.cells| && s < |w.starts| && s < |w.cells|
    requires LayoutAt(g, w, s) == LayoutAt(g, v, s)
    ensures PtrCells(g, w, s) == PtrCells(g, v, s) && SizeOf(g, w, s) == SizeOf(g, v, s)
  {
    forall c: nat ensures PtrCellOf(g, w, s, c) <==> PtrCellOf(g, v, s, c) {}
  }

  lemma {:induction false} SamePageWalk(g: Geometry, v: View, w: View, p: nat, s: nat, end: nat)
    requires SamePage(g, v, w, p) && end <= |v.starts| && PAGE_CELLS * p <= s && end <= PAGE_CELLS * (p + 1)
    ensures WalkVisits(g, w, s, end) == WalkVisits(g, v, s, end)
    decreases end - s
  {
    if s < end && v.starts[s] != NoStart {
      assert s / PAGE_CELLS == p;
      SamePtrCells(g, v, w, s);
      if SizeOf(g, v, s) != 0 { SamePageWalk(g, v, w, p, s + SizeOf(g, v, s), end); }
    }
  }

  lemma {:induction false} SameNext(a: seq<Start>, b: seq<Start>, t: nat, end: nat)
    requires t <= end <= |a| == |b| && forall x | t <= x < end :: a[x] == b[x]
    ensures NextStart(a, t, end) == NextStart(b, t, end)
    decreases end - t
  {
    if t < end { SameNext(a, b, t + 1, end); }
  }

  /** A card scan depends only on the objects of its page. */
  lemma SameVisits(g: Geometry, v: View, w: View, k: nat)
    requires k < CARDS_PER_PAGE * g.nPages && SamePage(g, v, w, k / CARDS_PER_PAGE)
    ensures CardVisits(g, w, k) == CardVisits(g, v, k)
  {
    var start, end, p := CARD_CELLS * k, CARD_CELLS * (k + 1), k / CARDS_PER_PAGE;
    CardOnPage(k);
    assert forall x: nat | start / PAGE_CELLS * PAGE_CELLS <= x <= start :: x / PAGE_CELLS == p;
    SameOwner(v.starts, w.starts, start);
    SameNext(v.starts, w.starts, start, end);
    assert PAGE_CELLS * p <= WalkStart(v.starts, start, end);
    SamePageWalk(g, v, w, p, WalkStart(v.starts, start, end), end);
  }

  // -- The dirty cards a pass scans -----------------------------------------

  /** Card `k` is dirty and, by the descriptor snapshot, on a page that is neither
      Free nor in the generation being evacuated. */
  predicate CardScanned(cards: seq<bool>, snapshot: seq<PageDesc>, fromGen: Generation, k: nat) {
    && k < |cards| && cards[k]
    && k / CARDS_PER_PAGE < |snapshot|
    && snapshot[k / CARDS_PER_PAGE].generation != Free
    && snapshot[k / CARDS_PER_PAGE].generation != fromGen
  }

  /** The cells visited by scanning the first `n` cards. */
  function VisitedBy(g: Geometry, v: View, cards: seq<bool>, snapshot: seq<PageDesc>, fromGen: Generation,
                     n: nat): set<nat>
    requires Shaped(g, v) && n <= CARDS_PER_PAGE * g.nPages
  {
    set k: nat, c | k < n && CardScanned(cards, snapshot, fromGen, k) && c in CardVisits(g, v, k) :: c
  }

  /** The cells `scan_dirty_cards_as_roots` visits; none when a pass runs without card scan. */
  function CardRoots(g: Geometry, v: View, cards: seq<bool>, scan: Option<seq<PageDesc>>, fromGen: Generation): set<nat>
    requires Shaped(g, v)
  {
    match scan
    case Some(snapshot) => VisitedBy(g, v, cards, snapshot, fromGen, CARDS_PER_PAGE * g.nPages)
    case None => {}
  }

  lemma VisitedStep(g: Geometry, v: View, cards: seq<bool>, snapshot: seq<PageDesc>, fromGen: Generation, n: nat)
    requires Shaped(g, v) && n < CARDS_PER_PAGE * g.nPages
    ensures VisitedBy(g, v, cards, snapshot, fromGen, n + 1) ==
            VisitedBy(g, v, cards, snapshot, fromGen, n)
            + (if CardScanned(cards, snapshot, fromGen, n) then CardVisits(g, v, n) else {})
  {
  }

  // -- The helpers both card scans share ------------------------------------

  /** `object_start_at_or_before`. */
  method ObjectStartAtOrBefore(h: PageHeap, c: nat) returns (o: Option<nat>)
    requires h.Valid() && c < h.cells.Length && KindsOk(h.descs) && NoLarge(h.V())
    ensures o == if h.descs[c / PAGE_CELLS].kind == Unassigned then None else Owner(h.V().starts, c)
  {
    hide Starts, GeoOk;
    if h.descs[c / PAGE_CELLS].kind == Unassigned { return None; }
    var first := c / PAGE_CELLS * PAGE_CELLS;
    var s := c;
    while true
      invariant first <= s <= c
      invariant Owner(h.V().starts, c) == Owner(h.V().starts, s)
      decreases s
    {
      var isStart := h.startTable.IsStart(s);
      if isStart { return Some(s); }
      if s == first { return None; }
      s := s - 1;
    }
  }

  /** Where `visit_card_pointer_cells` starts walking. */
  method FindWalkStart(h: PageHeap, start: nat, end: nat) returns (s: nat)
    requires h.Valid() && start < end <= h.cells.Length && KindsOk(h.descs) && NoLarge(h.V())
    ensures s == if h.descs[start / PAGE_CELLS].kind == Unassigned then NextStart(h.V().starts, start, end)
                 else WalkStart(h.V().starts, start, end)
  {
    hide Starts, GeoOk;
    var o := ObjectStartAtOrBefore(h, start);
    if o.Some? { return o.value; }
    var t := start;
    while t < end
      invariant start <= t <= end
      invariant NextStart(h.V().starts, start, end) == NextStart(h.V().starts, t, end)
    {
      var isStart := h.startTable.IsStart(t);
      if isStart { break; }
      t := t + 1;
    }
    return t;
  }

  /** `object_pointer_cells`: size and pointer range; an unassigned page has no objects. */
  method ObjectPointerCells(h: PageHeap, s: nat) returns (layout: ObjectLayout)
    requires h.Valid() && s < h.cells.Length && KindsOk(h.descs) && NoLarge(h.V())
    requires h.descs[s / PAGE_CELLS].kind == Cons ==> h.V().starts[s] == ConsStart
    ensures layout == if h.descs[s / PAGE_CELLS].kind == Unassigned then Opaque(1) else LayoutAt(h.Geo(), h.V(), s)
  {
    hide Starts, GeoOk;
    var kind := h.descs[s / PAGE_CELLS].kind;
    if kind == Unassigned { return Opaque(1); }
    var isCons := kind == Cons;
    if kind == Boxed { isCons := h.startTable.IsConsStart(s); }
    if isCons { return ObjectLayout(2, 0, 2); }
    return h.layout.headerLayout(h.cells[s]);
  }
}
