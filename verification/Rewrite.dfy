/** Phase 2 of an evacuation: every word that points at a forwarded object is
    re-aimed, and nothing else is touched. */
module Rewrite {
  import opened Bits
  import opened Options
  import opened Bitmaps
  import opened Layouts
  import opened Pages
  import opened Objects
  import opened PageHeaps
  import opened Marking
  import opened Cards
  import opened Moves

  /** Phase 2 in progress: from `v0`, with the cells of `touched` rewritten so far. */
  ghost predicate Rewriting(h: PageHeap, f: map<nat, nat>, v0: View, touched: set<nat>)
    reads h, h.cells, h.startTable.bits
  {
    && h.Valid()
    && PartOk(h.Geo(), v0) && FwdMap(h.Geo(), v0, f) && OnlyRewritable(h.Geo(), v0, touched)
    && Rewrote(h.Geo(), f, v0, h.V(), touched)
  }

  /** `maybe_rewrite` / `maybe_rewrite_word`: the relocated word if the target cell
      holds a marker of this pass, `None` if the word stays as it is. */
  method MaybeRewrite(h: PageHeap, w: u64, ghost f: map<nat, nat>) returns (r: Option<u64>)
    requires h.Valid() && FwdMap(h.Geo(), h.V(), f)
    ensures Reloc(h.Geo(), f, w) == match r case Some(x) => x case None => w
  {
    hide Starts, WellPaired, MarkerCell, Lawful;
    var kind := h.layout.classify(w);
    if !kind.IsPointer() { return None; }
    var page := h.PageOf(kind.addr);
    if page.None? || h.descs[page.value].generation == Free { return None; }
    var c := (kind.addr - h.base) / 8;
    var src := h.layout.classify(h.cells[c]);
    if c in f { MarkerLaw(h.Geo(), f[c]); }
    if !src.Forwarded? { return None; }
    var isStart := h.startTable.IsStart(c);
    if !isStart { return None; }
    var targetPage := h.PageOf(src.addr);
    if targetPage.None? { return None; }
    assert IsObj(h.V(), c) && c in f;
    return Some(h.layout.rewritePointerAddr(w, src.addr));
  }

  /** One pointer cell rewritten in place. */
  method RewriteCell(h: PageHeap, c: nat, ghost f: map<nat, nat>, ghost v0: View, ghost touched: set<nat>)
    requires Rewriting(h, f, v0, touched) && c < |v0.cells| && Rewritable(h.Geo(), v0, c)
    modifies h.cells
    ensures Rewriting(h, f, v0, touched + {c})
  {
    hide Starts, Lawful, Rewritable, PartOk, ObjOk, Rewrote, FwdMap, GeoOk, Reloc;
    ghost var v1 := h.V();
    SameDescs(h.Geo(), f, v0, v1, touched);
    RewroteOk(h.Geo(), f, v0, v1, touched);
    var rewritten := MaybeRewrite(h, h.cells[c], f);
    h.WriteCell(c, match rewritten case Some(x) => x case None => h.cells[c]);
    FwdRange(h.Geo(), v0, f);
    RewroteOne(h.Geo(), f, v0, v1, h.V(), touched, c);
  }

  lemma FwdRange(g: Geometry, v: View, f: map<nat, nat>)
    requires GeoOk(g) && Shaped(g, v) && FwdMap(g, v, f)
    ensures InRange(g, f) && f.Values !! f.Keys
  {
  }

  predicate Between(lo: nat, c: nat, hi: nat) { lo <= c < hi }

  function Range(lo: nat, hi: nat): set<nat> {
    set c: nat {:trigger Between(lo, c, hi)} | lo <= c < hi && Between(lo, c, hi)
  }

  /** The payload loop shared by the page walk and the pinned objects. */
  method RewriteRange(h: PageHeap, lo: nat, hi: nat, ghost f: map<nat, nat>, ghost v0: View, ghost touched: set<nat>)
    requires Rewriting(h, f, v0, touched)
    requires OnlyRewritable(h.Geo(), v0, Range(lo, hi))
    modifies h.cells
    ensures Rewriting(h, f, v0, touched + Range(lo, hi))
  {
    hide Starts, Lawful, Rewritable, ObjOk, Rewrote, FwdMap, GeoOk, OnlyRewritable;
    var c := lo;
    assert touched + Range(lo, lo) == touched;
    while c < hi
      invariant lo <= c && (c <= hi || c == lo)
      invariant Rewriting(h, f, v0, touched + Range(lo, c))
    {
      OneLive(h.Geo(), v0, Range(lo, hi), c) by { assert Between(lo, c, hi); }
      RewriteCell(h, c, f, v0, touched + Range(lo, c));
      assert touched + Range(lo, c) + {c} == touched + Range(lo, c + 1);
      c := c + 1;
    }
    assert touched + Range(lo, c) == touched + Range(lo, hi);
  }

  lemma OneLive(g: Geometry, v: View, cells: set<nat>, c: nat)
    requires |v.starts| == |v.cells| && OnlyRewritable(g, v, cells) && c in cells
    ensures c < |v.cells| && Rewritable(g, v, c)
  {
  }

  // -- Pages ----------------------------------------------------------------

  /** Pointer cells of live objects on page `p` below cell `x`. */
  function LivePtrsBelow(g: Geometry, v: View, p: nat, x: nat): set<nat>
    requires |v.starts| == |v.cells|
  {
    set c | PAGE_CELLS * p <= c < x && c < |v.cells| && LivePtr(g, v, c)
  }

  function PageLivePtrs(g: Geometry, v: View, p: nat): set<nat>
    requires |v.starts| == |v.cells|
  {
    LivePtrsBelow(g, v, p, PAGE_CELLS * (p + 1))
  }

  /** The walk stands at `x`, past every live object that starts before it. */
  ghost predicate WalkAt(g: Geometry, v: View, p: nat, x: nat)
    requires |v.starts| == |v.cells|
  {
    forall s: nat | PAGE_CELLS * p <= s < x && s < |v.starts| && v.starts[s] != NoStart && !IsMarker(g, v.cells[s]) ::
      s + SizeOf(g, v, s) <= x
  }

  lemma WalkSkip(g: Geometry, v: View, p: nat, x: nat)
    requires PartOk(g, v) && WalkAt(g, v, p, x) && PAGE_CELLS * p <= x < PAGE_CELLS * (p + 1) && p < g.nPages
    requires v.descs[p].generation != Free
    requires v.starts[x] == NoStart || IsMarker(g, v.cells[x])
    ensures WalkAt(g, v, p, x + 1) && LivePtrsBelow(g, v, p, x + 1) == LivePtrsBelow(g, v, p, x)
  {
    assert x / PAGE_CELLS == p;
    var o := Owner(v.starts, x);
    if v.starts[x] == NoStart && o.Some? && !IsMarker(g, v.cells[o.value]) {
      assert ObjOk(g, v, o.value);
      assert PAGE_CELLS * p <= o.value < x;
      assert x !in PtrCells(g, v, o.value);
    }
    assert !LivePtr(g, v, x);
  }

  lemma WalkObject(g: Geometry, v: View, p: nat, x: nat)
    requires PartOk(g, v) && WalkAt(g, v, p, x) && PAGE_CELLS * p <= x < PAGE_CELLS * (p + 1) && p < g.nPages
    requires v.descs[p].generation != Free
    requires v.starts[x] != NoStart && !IsMarker(g, v.cells[x])
    ensures ObjOk(g, v, x)
    ensures x + SizeOf(g, v, x) <= PAGE_CELLS * p + v.descs[p].wordsUsed
    ensures WalkAt(g, v, p, x + SizeOf(g, v, x))
    ensures LivePtrsBelow(g, v, p, x + SizeOf(g, v, x)) == LivePtrsBelow(g, v, p, x) + PtrCells(g, v, x)
    ensures OnlyRewritable(g, v, PtrCells(g, v, x))
  {
    assert x / PAGE_CELLS == p && IsObj(v, x);
    assert ObjOk(g, v, x);
    var end := x + SizeOf(g, v, x);
    forall c | c in PtrCells(g, v, x) ensures c < end && c < |v.cells| && LivePtr(g, v, c) {
      PtrCellOwned(g, v, x, c);
    }
    forall c | x <= c < end ensures c < |v.cells| && (LivePtr(g, v, c) ==> c in PtrCells(g, v, x)) {
      ExtentOwner(g, v, x, c - x);
    }
    hide LivePtr, PtrCells;
    assert LivePtrsBelow(g, v, p, end) == LivePtrsBelow(g, v, p, x) + PtrCells(g, v, x);
  }

  lemma WalkDone(g: Geometry, v: View, p: nat, x: nat)
    requires PartOk(g, v) && p < g.nPages && v.descs[p].generation != Free
    requires x == PAGE_CELLS * p + v.descs[p].wordsUsed && v.descs[p].wordsUsed <= PAGE_CELLS
    ensures LivePtrsBelow(g, v, p, x) == PageLivePtrs(g, v, p)
  {
    forall c | PAGE_CELLS * p <= c < PAGE_CELLS * (p + 1) && c < |v.cells| && LivePtr(g, v, c) ensures c < x {
      var s := Owner(v.starts, c).value;
      assert c / PAGE_CELLS == p && IsObj(v, s) && ObjOk(g, v, s);
      assert c in PtrCells(g, v, s);
    }
  }

  /** `rewrite_page`: the pointer cells of every live object on the page. */
  method RewritePage(h: PageHeap, p: nat, ghost f: map<nat, nat>, ghost v0: View, ghost touched: set<nat>)
    requires Rewriting(h, f, v0, touched) && p < h.nPages && v0.descs[p].wordsUsed <= PAGE_CELLS
    modifies h.cells
    ensures Rewriting(h, f, v0, touched + (if v0.descs[p].generation == Free then {} else PageLivePtrs(h.Geo(), v0, p)))
  {
    hide Starts, Lawful, LivePtr, ObjOk, GeoOk, OnlyRewritable, FwdMap, WalkAt, LivePtrsBelow, PtrCells, Rewrote,
      PartOk;
    ghost var g := h.Geo();
    SameDescs(g, f, v0, h.V(), touched);
    if h.descs[p].generation == Free {
      assert touched + {} == touched;
      return;
    }
    var first := PAGE_CELLS * p;
    var last := first + h.descs[p].wordsUsed;
    var x := first;
    WalkFirst(g, v0, p);
    assert touched + LivePtrsBelow(g, v0, p, first) == touched;
    while x < last
      invariant first <= x <= last
      invariant Rewriting(h, f, v0, touched + LivePtrsBelow(g, v0, p, x))
      invariant WalkAt(g, v0, p, x)
    {
      ghost var done := touched + LivePtrsBelow(g, v0, p, x);
      SameDescs(g, f, v0, h.V(), done);
      var isStart := h.startTable.IsStart(x);
      if !isStart {
        WalkSkip(g, v0, p, x);
        x := x + 1;
        continue;
      }
      SameLayout(g, f, v0, h.V(), done, p, x);
      var head := h.layout.classify(h.cells[x]);
      if head.Forwarded? && h.PageOf(head.addr).Some? {
        WalkSkip(g, v0, p, x);
        x := x + 1;
        continue;
      }
      var isCons := h.startTable.IsConsStart(x);
      var layout := if isCons then ObjectLayout(2, 0, 2) else h.layout.headerLayout(h.cells[x]);
      WalkObject(g, v0, p, x);
      PtrRange(g, v0, x);
      RewriteRange(h, x + layout.ptrStart, x + layout.ptrEnd, f, v0, done);
      assert touched + LivePtrsBelow(g, v0, p, x) + PtrCells(g, v0, x) == touched + LivePtrsBelow(g, v0, p,
          x + layout.totalCells);
      SizePositive(g, v0, x);
      x := x + layout.totalCells;
    }
    WalkDone(g, v0, p, x);
  }

  lemma SizePositive(g: Geometry, v: View, s: nat)
    requires Shaped(g, v) && s < |v.starts| && ObjOk(g, v, s)
    ensures SizeOf(g, v, s) >= 1
  {
  }

  lemma WalkFirst(g: Geometry, v: View, p: nat)
    requires |v.starts| == |v.cells|
    ensures WalkAt(g, v, p, PAGE_CELLS * p) && LivePtrsBelow(g, v, p, PAGE_CELLS * p) == {}
  {
  }

  lemma PtrRange(g: Geometry, v: View, s: nat)
    requires s < |v.starts| == |v.cells|
    ensures PtrCells(g, v, s) == Range(s + LayoutAt(g, v, s).ptrStart, s + LayoutAt(g, v, s).ptrEnd)
  {
    forall c | s + LayoutAt(g, v, s).ptrStart <= c < s + LayoutAt(g, v, s).ptrEnd ensures c in PtrCells(g, v, s) {
      assert PtrCellOf(g, v, s, c);
    }
  }

  lemma SameDescs(g: Geometry, f: map<nat, nat>, v0: View, v: View, touched: set<nat>)
    requires GeoOk(g) && PartOk(g, v0) && FwdMap(g, v0, f) && Rewrote(g, f, v0, v, touched)
    ensures v.descs == v0.descs && v.starts == v0.starts && |v.cells| == |v0.cells| && Shaped(g, v0)
  {
  }

  lemma SameLayout(g: Geometry, f: map<nat, nat>, v0: View, v: View, touched: set<nat>, p: nat, x: nat)
    requires GeoOk(g) && PartOk(g, v0) && FwdMap(g, v0, f) && OnlyRewritable(g, v0, touched)
    requires Rewrote(g, f, v0, v, touched)
    requires p < g.nPages && PAGE_CELLS * p <= x < PAGE_CELLS * (p + 1)
    requires v0.descs[p].generation != Free && v0.starts[x] != NoStart
    ensures LayoutAt(g, v, x) == LayoutAt(g, v0, x)
    ensures IsMarker(g, v.cells[x]) <==> IsMarker(g, v0.cells[x])
  {
    assert x / PAGE_CELLS == p && IsObj(v0, x);
    RewroteLayout(g, f, v0, v, touched, x);
  }

  // -- Cards ----------------------------------------------------------------

  /** Not the header of an object, or one that is no pointer into the heap. */
  predicate PlainAt(g: Geometry, v: View, c: nat)
    requires c < |v.starts| == |v.cells|
  {
    IsObj(v, c) && v.starts[c] == HeaderStart ==> !InHeap(g, v.cells[c])
  }

  /** Re-aiming the word at `c`, as part of what stands at `s`, does no harm: `c` lies in what starts
      at `s` or is the first cell of an object, and is no header that reads as a pointer. */
  predicate Harmless(g: Geometry, v: View, s: nat, c: nat)
    requires s < |v.starts| == |v.cells|
  {
    && s < c < |v.starts| && PlainAt(g, v, c)
    && if c / PAGE_CELLS == s / PAGE_CELLS then v.starts[c] == NoStart ==>
          forall x | s < x <= c :: v.starts[x] == NoStart
       else c == PAGE_CELLS * (s / PAGE_CELLS + 1)
  }

  /** The marker at `s` may be taken for a header: it decodes, and what it says are pointer cells
      may be re-aimed without harm. */
  predicate Readable(g: Geometry, v: View, s: nat)
    requires s < |v.starts| == |v.cells|
  {
    g.layout.decodes(v.cells[s]) && forall c | c in PtrCells(g, v, s) :: Harmless(g, v, s, c)
  }

  /** What stands at `s` may be visited: it is no marker in the place of a header, or one that may
      be taken for a header. */
  predicate Visitable(g: Geometry, v: View, s: nat)
    requires s < |v.starts| == |v.cells|
  {
    v.starts[s] == HeaderStart && IsMarker(g, v.cells[s]) ==> Readable(g, v, s)
  }

  /** The walk from `s` comes through: wherever a marker stands for a header it may be taken for one. */
  predicate WalkLegible(g: Geometry, v: View, s: nat, end: nat)
    requires end <= |v.starts| == |v.cells|
    decreases end - s
  {
    s < end && v.starts[s] != NoStart ==>
      && Visitable(g, v, s)
      && (SizeOf(g, v, s) == 0 || WalkLegible(g, v, s + SizeOf(g, v, s), end))
  }

  /** The scan of card `k` comes through. */
  predicate CardLegible(g: Geometry, v: View, k: nat)
    requires Shaped(g, v) && k < CARDS_PER_PAGE * g.nPages
  {
    GenAt(v, CARD_CELLS * k) != Free ==>
      WalkLegible(g, v, WalkStart(v.starts, CARD_CELLS * k, CARD_CELLS * (k + 1)), CARD_CELLS * (k + 1))
  }

  lemma HarmlessRewritable(g: Geometry, v: View, s: nat, c: nat)
    requires Shaped(g, v) && IsObj(v, s) && v.starts[s] == HeaderStart && IsMarker(g, v.cells[s])
    requires Harmless(g, v, s, c)
    ensures Rewritable(g, v, c)
  {
    if GenAt(v, c) == Free { return; }
    if v.starts[c] == ConsStart {
      assert Owner(v.starts, c) == Some(c) && PtrCellOf(g, v, c, c) && c in PtrCells(g, v, c);
    } else if v.starts[c] == NoStart && c / PAGE_CELLS == s / PAGE_CELLS {
      OwnerIs(v.starts, s, c);
    }
  }

  /** What the walk visits at one object may be rewritten. */
  lemma VisitRewritable(g: Geometry, v: View, s: nat)
    requires PartOk(g, v) && IsObj(v, s) && Visitable(g, v, s)
    ensures OnlyRewritable(g, v, PtrCells(g, v, s))
  {
    forall c | c in PtrCells(g, v, s) ensures c < |v.cells| && Rewritable(g, v, c) {
      if v.starts[s] == HeaderStart && IsMarker(g, v.cells[s]) {
        HarmlessRewritable(g, v, s, c);
      } else {
        assert Whole(g, v, s);
        PtrOwner(g, v, s, c);
      }
    }
  }

  lemma VisitSize(g: Geometry, v: View, s: nat)
    requires GeoOk(g) && PartOk(g, v) && IsObj(v, s) && Visitable(g, v, s)
    ensures SizeOf(g, v, s) >= 1
  {
    if !(v.starts[s] == HeaderStart && IsMarker(g, v.cells[s])) { assert Whole(g, v, s); }
  }

  lemma WalkFacts(g: Geometry, v: View, p: nat, s: nat, end: nat)
    requires GeoOk(g) && PartOk(g, v) && s < end <= |v.starts| && Visitable(g, v, s)
    requires end <= PAGE_CELLS * (p + 1) && s / PAGE_CELLS == p && p < |v.descs|
    requires v.descs[p].generation != Free && v.starts[s] != NoStart
    ensures IsObj(v, s) && SizeOf(g, v, s) >= 1
    ensures OnlyRewritable(g, v, PtrCells(g, v, s))
    ensures WalkVisits(g, v, s, end) == PtrCells(g, v, s) + WalkVisits(g, v, s + SizeOf(g, v, s), end)
    ensures WalkLegible(g, v, s, end) <==> WalkLegible(g, v, s + SizeOf(g, v, s), end)
    ensures s + SizeOf(g, v, s) < end ==> (s + SizeOf(g, v, s)) / PAGE_CELLS == p
  {
    hide Visitable, PtrCells, PartOk, SizeOf;
    VisitRewritable(g, v, s);
    VisitSize(g, v, s);
  }

  /** Whether every cell of `[lo, hi)` may be re-aimed as part of what stands at `s`. */
  method AllHarmless(h: PageHeap, s: nat, lo: nat, hi: nat) returns (ok: bool)
    requires h.Valid() && s < lo && s < h.cells.Length
    ensures ok <==> forall c | lo <= c < hi :: Harmless(h.Geo(), h.V(), s, c)
  {
    hide Starts, GeoOk, WellPaired, Harmless;
    if lo >= hi { return true; }
    var clear := true;
    var x := s + 1;
    while x < hi
      invariant s < x && (forall c | lo <= c < x && c < hi :: Harmless(h.Geo(), h.V(), s, c))
      invariant x <= h.cells.Length && (clear <==> forall y | s < y < x :: h.V().starts[y] == NoStart)
    {
      if x >= h.cells.Length {
        BeyondHarms(h.Geo(), h.V(), s, hi - 1);
        return false;
      }
      var harmless;
      harmless, clear := HarmlessAt(h, s, x, clear);
      if x >= lo && !harmless { return false; }
      x := x + 1;
    }
    return true;
  }

  lemma BeyondHarms(g: Geometry, v: View, s: nat, c: nat)
    requires s < |v.starts| == |v.cells| <= c
    ensures !Harmless(g, v, s, c)
  {
  }

  /** Whether the cell `x` may be re-aimed as part of what stands at `s`; nothing starts between
      the two if `clear0`, nor at `x` either if `clear`. */
  method HarmlessAt(h: PageHeap, s: nat, x: nat, clear0: bool) returns (ok: bool, clear: bool)
    requires h.Valid() && s < x < h.cells.Length && (clear0 <==> forall y | s < y < x :: h.V().starts[y] == NoStart)
    ensures ok <==> Harmless(h.Geo(), h.V(), s, x)
    ensures clear <==> forall y | s < y < x + 1 :: h.V().starts[y] == NoStart
  {
    hide Starts, GeoOk, WellPaired;
    var isStart := h.startTable.IsStart(x);
    var isCons := h.startTable.IsConsStart(x);
    clear := clear0 && !isStart;
    assert clear0 && !clear ==> h.V().starts[x] != NoStart;
    if isStart && !isCons && h.descs[x / PAGE_CELLS].generation != Free && InHeap(h.Geo(), h.cells[x]) {
      ok := false;
    } else {
      ok := if x / PAGE_CELLS == s / PAGE_CELLS then isStart || clear else x == PAGE_CELLS * (s / PAGE_CELLS + 1);
    }
  }

  lemma SameReadable(g: Geometry, f: map<nat, nat>, v0: View, v: View, touched: set<nat>, s: nat)
    requires GeoOk(g) && PartOk(g, v0) && FwdMap(g, v0, f) && OnlyRewritable(g, v0, touched)
    requires Rewrote(g, f, v0, v, touched) && IsObj(v0, s) && IsMarker(g, v0.cells[s])
    ensures v.starts == v0.starts && |v.cells| == |v0.cells| && s < |v.starts| == |v.cells|
    ensures Readable(g, v, s) <==> Readable(g, v0, s)
  {
    RewroteLayout(g, f, v0, v, touched, s);
    SamePtrCells(g, v0, v, s);
    FwdParts(g, v0, f);
    forall c: nat ensures Harmless(g, v, s, c) <==> Harmless(g, v0, s, c) {
      if c < |v0.cells| { RelocLaw(g, f, v0.cells[c]); }
    }
  }

  /** Whether the marker that stands for a header at `s` may be taken for one. */
  method MayRead(h: PageHeap, s: nat, ghost f: map<nat, nat>, ghost v0: View, ghost touched: set<nat>)
    returns (ok: bool)
    requires Rewriting(h, f, v0, touched) && IsObj(v0, s) && v0.starts[s] == HeaderStart
    requires IsMarker(h.Geo(), v0.cells[s])
    ensures ok == Readable(h.Geo(), v0, s)
  {
    hide Starts, LivePtr, ObjOk, OnlyRewritable, FwdMap, PtrCells, Rewrote, PartOk, Harmless;
    ghost var g := h.Geo();
    SameDescs(g, f, v0, h.V(), touched);
    SameReadable(g, f, v0, h.V(), touched, s);
    if !h.layout.decodes(h.cells[s]) { return false; }
    var layout := h.layout.headerLayout(h.cells[s]);
    ok := layout.ptrStart >= layout.ptrEnd;
    if !ok { ok := AllHarmless(h, s, s + layout.ptrStart, s + layout.ptrEnd); }
    ReadableBy(g, h.V(), s, s + layout.ptrStart, s + layout.ptrEnd);
  }

  lemma ReadableBy(g: Geometry, v: View, s: nat, lo: nat, hi: nat)
    requires s < |v.starts| == |v.cells| && g.layout.decodes(v.cells[s])
    requires lo == s + LayoutAt(g, v, s).ptrStart && hi == s + LayoutAt(g, v, s).ptrEnd
    ensures Readable(g, v, s) <==> forall c | lo <= c < hi :: Harmless(g, v, s, c)
  {
    hide Harmless;
    forall c: nat ensures c in PtrCells(g, v, s) <==> lo <= c < hi {
      PtrRange(g, v, s);
      InRangeSet(lo, hi, c);
    }
  }

  lemma InRangeSet(lo: nat, hi: nat, c: nat)
    ensures c in Range(lo, hi) <==> lo <= c < hi
  {
    if lo <= c < hi { assert Between(lo, c, hi); }
  }

  /** One object of the walk: its pointer cells rewritten, its size told. */
  method RewriteVisit(h: PageHeap, s: nat, ghost f: map<nat, nat>, ghost v0: View, ghost touched: set<nat>)
    returns (readable: bool, size: nat)
    requires Rewriting(h, f, v0, touched) && IsObj(v0, s)
    requires KindsOk(v0.descs) && NoLarge(v0) && ConsPagesOk(v0)
    modifies h.cells
    ensures h.Valid() && |v0.cells| == |v0.starts| && readable == Visitable(h.Geo(), v0, s)
    ensures readable ==> size == SizeOf(h.Geo(), v0, s) && Rewriting(h, f, v0, touched + PtrCells(h.Geo(), v0, s))
  {
    hide Starts, Lawful, LivePtr, ObjOk, GeoOk, OnlyRewritable, FwdMap, PtrCells, Rewrote, PartOk, Owner, ConsPagesOk,
      Readable;
    ghost var g := h.Geo();
    SameDescs(g, f, v0, h.V(), touched);
    SameCardLayout(g, f, v0, h.V(), touched, s);
    var isCons := h.startTable.IsConsStart(s);
    var head := h.layout.classify(h.cells[s]);
    readable, size := true, 0;
    if !isCons && head.Forwarded? && h.PageOf(head.addr).Some? {
      readable := MayRead(h, s, f, v0, touched);
      if !readable { return; }
    }
    var layout := ObjectPointerCells(h, s);
    PtrRange(g, v0, s);
    VisitRewritable(g, v0, s);
    RewriteRange(h, s + layout.ptrStart, s + layout.ptrEnd, f, v0, touched);
    size := layout.totalCells;
  }

  /** The walk of `visit_card_pointer_cells` in Rewrite mode, from object to object up to `end`. Like
      the source it takes whatever stands at a header start for a header. It gives up where that is a
      marker which the source could not decode, or whose decoding would lead it astray. */
  method RewriteWalk(h: PageHeap, p: nat, start: nat, end: nat, ghost f: map<nat, nat>, ghost v0: View,
                     ghost touched: set<nat>)
    returns (legible: bool)
    requires Rewriting(h, f, v0, touched) && p < |v0.descs| && v0.descs[p].generation != Free
    requires end <= h.cells.Length && end <= PAGE_CELLS * (p + 1) && (start < end ==> start / PAGE_CELLS == p)
    requires KindsOk(v0.descs) && NoLarge(v0) && ConsPagesOk(v0)
    modifies h.cells
    ensures h.Valid() && legible == WalkLegible(h.Geo(), v0, start, end)
    ensures legible ==> Rewriting(h, f, v0, touched + WalkVisits(h.Geo(), v0, start, end))
  {
    hide Starts, Lawful, LivePtr, ObjOk, GeoOk, OnlyRewritable, FwdMap, PtrCells, Rewrote, PartOk, WalkVisits,
      WalkLegible, Owner, NextStart, ConsPagesOk, IsObj, Visitable;
    ghost var g := h.Geo();
    SameDescs(g, f, v0, h.V(), touched);
    ghost var all := WalkVisits(g, v0, start, end);
    ghost var done := touched;
    var s := start;
    while s < end
      invariant s < end ==> s / PAGE_CELLS == p
      invariant Rewriting(h, f, v0, done)
      invariant touched + all == done + WalkVisits(g, v0, s, end)
      invariant WalkLegible(g, v0, start, end) == WalkLegible(g, v0, s, end)
      decreases end - s
    {
      SameDescs(g, f, v0, h.V(), done);
      var isStart := h.startTable.IsStart(s);
      if !isStart {
        WalkStops(g, v0, s, end);
        break;
      }
      StartIsObj(v0, s);
      var readable, size := RewriteVisit(h, s, f, v0, done);
      if !readable {
        WalkMisreads(g, v0, s, end);
        return false;
      }
      WalkFacts(g, v0, p, s, end);
      done := done + PtrCells(g, v0, s);
      if size == 0 { break; }
      s := s + size;
    }
    WalkStops(g, v0, s, end);
    assert done == touched + all;
    return true;
  }

  lemma StartIsObj(v: View, s: nat)
    requires s < |v.starts| && s / PAGE_CELLS < |v.descs| && v.starts[s] != NoStart
    requires v.descs[s / PAGE_CELLS].generation != Free
    ensures IsObj(v, s)
  {
  }

  /** `visit_card_pointer_cells` in Rewrite mode. */
  method RewriteCard(h: PageHeap, k: nat, ghost f: map<nat, nat>, ghost v0: View, ghost touched: set<nat>)
    returns (legible: bool)
    requires Rewriting(h, f, v0, touched) && k < h.cards.Length
    requires KindsOk(v0.descs) && NoLarge(v0) && ConsPagesOk(v0)
    modifies h.cells
    ensures h.Valid() && legible == CardLegible(h.Geo(), v0, k)
    ensures legible ==> Rewriting(h, f, v0, touched + CardVisits(h.Geo(), v0, k))
  {
    hide Starts, Lawful, LivePtr, ObjOk, GeoOk, OnlyRewritable, FwdMap, PtrCells, Rewrote, PartOk, WalkVisits,
      WalkLegible, Owner, NextStart, ConsPagesOk, IsObj, WalkStart;
    SameDescs(h.Geo(), f, v0, h.V(), touched);
    CardOnPage(k);
    var p := k / CARDS_PER_PAGE;
    var start, end := CARD_CELLS * k, CARD_CELLS * (k + 1);
    var s := FindWalkStart(h, start, end);
    if h.descs[p].kind == Unassigned {
      // Whatever stale starts the walk steps over there, it takes them for opaque cells.
      assert touched + {} == touched;
      return true;
    }
    WalkStartOnPage(v0.starts, start, end, p);
    legible := RewriteWalk(h, p, s, end, f, v0, touched);
  }

  lemma WalkMisreads(g: Geometry, v: View, s: nat, end: nat)
    requires s < end <= |v.starts| == |v.cells| && !Visitable(g, v, s)
    ensures !WalkLegible(g, v, s, end)
  {
  }

  lemma WalkStops(g: Geometry, v: View, s: nat, end: nat)
    requires end <= |v.starts| == |v.cells|
    ensures s >= end || v.starts[s] == NoStart ==> WalkVisits(g, v, s, end) == {} && WalkLegible(g, v, s, end)
  {
  }

  lemma WalkStartOnPage(starts: seq<Start>, start: nat, end: nat, p: nat)
    requires start < end <= |starts| && forall x | start <= x < end :: x / PAGE_CELLS == p
    ensures var s := WalkStart(starts, start, end); s < end ==> s / PAGE_CELLS == p
  {
  }

  lemma SameCardLayout(g: Geometry, f: map<nat, nat>, v0: View, v: View, touched: set<nat>, s: nat)
    requires GeoOk(g) && PartOk(g, v0) && FwdMap(g, v0, f) && OnlyRewritable(g, v0, touched)
    requires Rewrote(g, f, v0, v, touched) && IsObj(v0, s) && ConsPagesOk(v0)
    ensures LayoutAt(g, v, s) == LayoutAt(g, v0, s) && (IsMarker(g, v.cells[s]) <==> IsMarker(g, v0.cells[s]))
    ensures v0.descs[s / PAGE_CELLS].kind == Cons ==> v0.starts[s] == ConsStart
  {
    RewroteLayout(g, f, v0, v, touched, s);
  }

  // -- Roots, pages and pins: the whole phase -------------------------------

  /** The caller's root slots in Rewrite mode. */
  method RewriteRoots(h: PageHeap, roots: array<u64>, ghost f: map<nat, nat>, ghost v0: View, ghost touched: set<nat>)
    requires Rewriting(h, f, v0, touched)
    requires roots != h.cells && roots != h.startTable.bits && roots != h.markTable.bits
    modifies roots
    ensures RootsMoved(h.Geo(), f, old(roots[..]), roots[..])
  {
    hide Starts, Lawful, LivePtr, PartOk, ObjOk, OnlyRewritable, Rewrote, Reloc, FwdMap;
    ghost var g := h.Geo();
    SameDescs(g, f, v0, h.V(), touched);
    RewroteOk(g, f, v0, h.V(), touched);
    FwdRange(g, v0, f);
    for i := 0 to roots.Length
      invariant forall j | 0 <= j < roots.Length ::
                  roots[j] == if j < i then Reloc(g, f, old(roots[j])) else old(roots[j])
    {
      var rewritten := MaybeRewrite(h, roots[i], f);
      if rewritten.Some? { roots[i] := rewritten.value; }
    }
  }

  /** Every root holds its old word relocated. */
  ghost predicate RootsMoved(g: Geometry, f: map<nat, nat>, before: seq<u64>, after: seq<u64>)
    requires GeoOk(g) && InRange(g, f)
  {
    && |after| == |before|
    && forall i | 0 <= i < |before| :: after[i] == Reloc(g, f, before[i])
  }

  /** The scan comes through on every card it looks at. */
  ghost predicate ScanLegible(g: Geometry, v: View, cards: seq<bool>, scan: Option<seq<PageDesc>>, fromGen: Generation)
    requires Shaped(g, v)
  {
    scan.Some? ==>
      forall k: nat | k < CARDS_PER_PAGE * g.nPages && CardScanned(cards, scan.value, fromGen, k) ::
          CardLegible(g, v, k)
  }

  /** `scan_dirty_cards_as_roots` in Rewrite mode. */
  method RewriteCards(h: PageHeap, fromGen: Generation, scan: Option<seq<PageDesc>>,
                      ghost f: map<nat, nat>, ghost v0: View)
    returns (legible: bool)
    requires Rewriting(h, f, v0, {}) && (scan.Some? ==> |scan.value| == h.nPages)
    requires KindsOk(v0.descs) && NoLarge(v0) && ConsPagesOk(v0)
    modifies h.cells
    ensures h.Valid() && legible == ScanLegible(h.Geo(), v0, h.cards[..], scan, fromGen)
    ensures legible ==> Rewriting(h, f, v0, CardRoots(h.Geo(), v0, h.cards[..], scan, fromGen))
  {
    hide Starts, Lawful, LivePtr, ObjOk, GeoOk, OnlyRewritable, FwdMap, PtrCells, Rewrote, CardLegible, VisitedBy,
      CardVisits, KindsOk, NoLarge, ConsPagesOk;
    if scan.None? { return true; }
    ghost var g := h.Geo();
    ghost var cards := h.cards[..];
    var snapshot := scan.value;
    NoneVisited(g, v0, cards, snapshot, fromGen);
    for k := 0 to h.cards.Length
      invariant Rewriting(h, f, v0, VisitedBy(g, v0, cards, snapshot, fromGen, k))
      invariant forall j: nat | j < k && CardScanned(cards, snapshot, fromGen, j) :: CardLegible(g, v0, j)
    {
      VisitedStep(g, v0, cards, snapshot, fromGen, k);
      assert VisitedBy(g, v0, cards, snapshot, fromGen, k) + {} == VisitedBy(g, v0, cards, snapshot, fromGen, k);
      if !h.cards[k] { continue; }
      var gen := snapshot[k / CARDS_PER_PAGE].generation;
      if gen == Free || gen == fromGen { continue; }
      assert CardScanned(cards, snapshot, fromGen, k);
      var cardLegible := RewriteCard(h, k, f, v0, VisitedBy(g, v0, cards, snapshot, fromGen, k));
      if !cardLegible { return false; }
    }
    return true;
  }

  lemma NoneVisited(g: Geometry, v: View, cards: seq<bool>, snapshot: seq<PageDesc>, fromGen: Generation)
    requires Shaped(g, v)
    ensures VisitedBy(g, v, cards, snapshot, fromGen, 0) == {}
  {
  }

  /** Pointer cells of live objects on the pages of `gen`. */
  function GenLivePtrs(g: Geometry, v: View, gen: Generation): set<nat>
    requires Shaped(g, v)
  {
    set c | 0 <= c < |v.cells| && GenAt(v, c) == gen && LivePtr(g, v, c)
  }

  /** Those on the first `n` pages. */
  function GenLivePtrsUpTo(g: Geometry, v: View, gen: Generation, n: nat): set<nat>
    requires Shaped(g, v)
  {
    set c | 0 <= c < |v.cells| && c < PAGE_CELLS * n && GenAt(v, c) == gen && LivePtr(g, v, c)
  }

  lemma GenStep(g: Geometry, v: View, gen: Generation, n: nat)
    requires Shaped(g, v) && n < g.nPages
    ensures GenLivePtrsUpTo(g, v, gen, 0) == {}
    ensures GenLivePtrsUpTo(g, v, gen, n + 1) ==
            GenLivePtrsUpTo(g, v, gen, n) + (if v.descs[n].generation == gen then PageLivePtrs(g, v, n) else {})
    ensures GenLivePtrsUpTo(g, v, gen, g.nPages) == GenLivePtrs(g, v, gen)
  {
    hide LivePtr;
    forall c: nat | c < |v.cells| ensures c / PAGE_CELLS == n <==> PAGE_CELLS * n <= c < PAGE_CELLS * (n + 1) {}
    assert GenLivePtrsUpTo(g, v, gen, g.nPages) == GenLivePtrs(g, v, gen);
    assert GenLivePtrsUpTo(g, v, gen, n + 1) ==
            GenLivePtrsUpTo(g, v, gen, n) + (if v.descs[n].generation == gen then PageLivePtrs(g, v, n) else {});
  }

  /** Every page of `destGen` in turn. */
  method RewritePagesOf(h: PageHeap, destGen: Generation, ghost f: map<nat, nat>, ghost v0: View,
                        ghost touched: set<nat>)
    requires Rewriting(h, f, v0, touched) && destGen != Free
    requires forall p | 0 <= p < |v0.descs| :: v0.descs[p].wordsUsed <= PAGE_CELLS
    modifies h.cells
    ensures Rewriting(h, f, v0, touched + GenLivePtrs(h.Geo(), v0, destGen))
  {
    hide Starts, Lawful, LivePtr, ObjOk, GeoOk, OnlyRewritable, FwdMap, PtrCells, Rewrote, GenLivePtrs,
      GenLivePtrsUpTo, PageLivePtrs;
    ghost var g := h.Geo();
    if h.nPages == 0 {
      NoPages(g, v0, destGen);
      assert touched + {} == touched;
      return;
    }
    GenStep(g, v0, destGen, 0);
    assert touched + {} == touched;
    for p := 0 to h.nPages
      invariant Rewriting(h, f, v0, touched + GenLivePtrsUpTo(g, v0, destGen, p))
    {
      ghost var done := touched + GenLivePtrsUpTo(g, v0, destGen, p);
      SameDescs(g, f, v0, h.V(), done);
      GenStep(g, v0, destGen, p);
      if h.descs[p].generation == destGen {
        RewritePage(h, p, f, v0, done);
        assert done + PageLivePtrs(g, v0, p) == touched + GenLivePtrsUpTo(g, v0, destGen, p + 1);
      } else {
        assert done == touched + GenLivePtrsUpTo(g, v0, destGen, p + 1);
      }
    }
  }

  lemma NoPages(g: Geometry, v: View, gen: Generation)
    requires Shaped(g, v) && g.nPages == 0
    ensures GenLivePtrs(g, v, gen) == {}
  {
  }

  /** Pointer cells of the live objects among `pins`. */
  function PinLivePtrs(g: Geometry, v: View, pins: set<nat>): set<nat>
    requires Shaped(g, v)
  {
    set c | 0 <= c < |v.cells| && LivePtr(g, v, c) && Owner(v.starts, c).value in pins
  }

  lemma PinStep(g: Geometry, v: View, pins: set<nat>, s: nat)
    requires PartOk(g, v) && IsObj(v, s)
    ensures PinLivePtrs(g, v, pins + {s}) ==
            PinLivePtrs(g, v, pins) + (if IsMarker(g, v.cells[s]) then {} else PtrCells(g, v, s))
    ensures !IsMarker(g, v.cells[s]) ==> OnlyRewritable(g, v, PtrCells(g, v, s))
  {
    if !IsMarker(g, v.cells[s]) {
      forall c | c in PtrCells(g, v, s) ensures c < |v.cells| && LivePtr(g, v, c) && Owner(v.starts, c) == Some(s) {
        PtrCellOwned(g, v, s, c);
      }
    }
  }

  /** `rewrite_pinned_object`. */
  method RewritePinnedObject(h: PageHeap, s: nat, ghost f: map<nat, nat>, ghost v0: View, ghost touched: set<nat>)
    requires Rewriting(h, f, v0, touched) && IsObj(v0, s)
    modifies h.cells
    ensures Rewriting(h, f, v0, touched + (if IsMarker(h.Geo(), v0.cells[s]) then {} else PtrCells(h.Geo(), v0, s)))
  {
    hide Starts, Lawful, LivePtr, ObjOk, GeoOk, OnlyRewritable, FwdMap, PtrCells, Rewrote;
    ghost var g := h.Geo();
    SameDescs(g, f, v0, h.V(), touched);
    RewroteLayout(g, f, v0, h.V(), touched, s);
    var head := h.layout.classify(h.cells[s]);
    if head.Forwarded? && h.PageOf(head.addr).Some? {
      assert touched + {} == touched;
      return;
    }
    PinStep(g, v0, {}, s);
    var isCons := h.startTable.IsConsStart(s);
    var layout := if isCons then ObjectLayout(2, 0, 2) else h.layout.headerLayout(h.cells[s]);
    PtrRange(g, v0, s);
    RewriteRange(h, s + layout.ptrStart, s + layout.ptrEnd, f, v0, touched);
  }

  /** Every pinned object in turn, in any order. */
  method RewritePins(h: PageHeap, ghost f: map<nat, nat>, ghost v0: View, ghost touched: set<nat>)
    requires Rewriting(h, f, v0, touched)
    requires forall s | s in h.pinnedCells :: IsObj(v0, s)
    modifies h.cells
    ensures Rewriting(h, f, v0, touched + PinLivePtrs(h.Geo(), v0, h.pinnedCells))
  {
    hide Starts, Lawful, LivePtr, ObjOk, GeoOk, OnlyRewritable, FwdMap, PtrCells, Rewrote, PinLivePtrs;
    ghost var g := h.Geo();
    var rest := h.pinnedCells;
    ghost var done: set<nat> := {};
    NoPins(g, v0);
    assert touched + {} == touched;
    while rest != {}
      invariant done + rest == h.pinnedCells
      invariant Rewriting(h, f, v0, touched + PinLivePtrs(g, v0, done))
      decreases rest
    {
      var s :| s in rest;
      rest := rest - {s};
      PinStep(g, v0, done, s);
      RewritePinnedObject(h, s, f, v0, touched + PinLivePtrs(g, v0, done));
      assert touched + PinLivePtrs(g, v0, done) + (if IsMarker(g, v0.cells[s]) then {} else PtrCells(g, v0, s))
          == touched + PinLivePtrs(g, v0, done + {s});
      done := done + {s};
    }
    assert done == h.pinnedCells;
  }

  lemma NoPins(g: Geometry, v: View)
    requires Shaped(g, v)
    ensures PinLivePtrs(g, v, {}) == {}
  {
  }

  /** Everything Phase 2 rewrites in the heap. */
  function Phase2Cells(g: Geometry, v: View, cards: seq<bool>, scan: Option<seq<PageDesc>>, fromGen: Generation,
                       destGen: Generation, pins: set<nat>): set<nat>
    requires Shaped(g, v)
  {
    CardRoots(g, v, cards, scan, fromGen) + GenLivePtrs(g, v, destGen) + PinLivePtrs(g, v, pins)
  }

  /** `phase2_rewrite`. */
  method Phase2Rewrite(h: PageHeap, fromGen: Generation, destGen: Generation, roots: array<u64>,
                       scan: Option<seq<PageDesc>>, ghost f: map<nat, nat>)
    returns (legible: bool)
    requires h.Valid() && destGen != Free && (scan.Some? ==> |scan.value| == h.nPages)
    requires PartOk(h.Geo(), h.V()) && FwdMap(h.Geo(), h.V(), f)
    requires KindsOk(h.descs) && NoLarge(h.V()) && ConsPagesOk(h.V())
    requires forall p | 0 <= p < |h.descs| :: h.descs[p].wordsUsed <= PAGE_CELLS
    requires forall s | s in h.pinnedCells :: IsObj(h.V(), s)
    requires roots != h.cells && roots != h.startTable.bits && roots != h.markTable.bits
    modifies h.cells, roots
    ensures h.Valid() && legible == ScanLegible(h.Geo(), old(h.V()), h.cards[..], scan, fromGen)
    ensures legible ==> Rewrote(h.Geo(), f, old(h.V()), h.V(),
                                Phase2Cells(h.Geo(), old(h.V()), h.cards[..], scan, fromGen, destGen, h.pinnedCells))
    ensures legible ==> OnlyRewritable(h.Geo(), old(h.V()),
                                       Phase2Cells(h.Geo(), old(h.V()), h.cards[..], scan, fromGen, destGen,
                                           h.pinnedCells))
    ensures RootsMoved(h.Geo(), f, old(roots[..]), roots[..])
  {
    hide Starts, Lawful, LivePtr, ObjOk, GeoOk, PtrCells, ScanLegible, KindsOk, NoLarge, ConsPagesOk, IsObj, CardRoots,
      GenLivePtrs, PinLivePtrs, IsMarker, PartOk, FwdMap;
    ghost var g, v0 := h.Geo(), h.V();
    StartRewriting(g, f, v0);
    RewriteRoots(h, roots, f, v0, {});
    legible := RewriteCards(h, fromGen, scan, f, v0);
    if !legible { return; }
    RewritePagesOf(h, destGen, f, v0, CardRoots(g, v0, h.cards[..], scan, fromGen));
    RewritePins(h, f, v0, CardRoots(g, v0, h.cards[..], scan, fromGen) + GenLivePtrs(g, v0, destGen));
  }

  lemma StartRewriting(g: Geometry, f: map<nat, nat>, v: View)
    requires GeoOk(g) && PartOk(g, v) && FwdMap(g, v, f)
    ensures Rewrote(g, f, v, v, {}) && OnlyRewritable(g, v, {}) && Shaped(g, v) && InRange(g, f)
  {
  }
}
