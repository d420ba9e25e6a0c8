/** Large objects: runs of whole pages that never move. */
module LargeRuns {
  import opened Bits
  import opened Options
  import opened Bitmaps
  import opened Layouts
  import opened Pages
  import opened Objects
  import opened PageHeaps
  import opened Alloc

  // -- The shape of a run ---------------------------------------------------

  /** A head page at `p` with `k - 1` continuation pages behind it, all of one generation. */
  predicate RunAt(descs: seq<PageDesc>, p: nat, k: nat) {
    && 1 <= k && p + k <= |descs| && descs[p].kind == Large && descs[p].nSpan == k && descs[p].generation != Free
    && forall i | p < i < p + k :: descs[i].IsLargeCont() && descs[i].generation == descs[p].generation
  }

  predicate HeadOf(descs: seq<PageDesc>, q: nat, p: nat) {
    q < |descs| && descs[q].IsLargeHead() && q <= p < q + descs[q].nSpan
  }

  /** Every Large page belongs to a run, and every head starts one. */
  ghost predicate RunsOk(descs: seq<PageDesc>) {
    && (forall p | 0 <= p < |descs| && descs[p].IsLargeHead() :: RunAt(descs, p, descs[p].nSpan))
    && (forall p | 0 <= p < |descs| && descs[p].IsLargeCont() :: exists q: nat :: HeadOf(descs, q, p))
  }

  /** Runs never overlap: a page has one head. */
  lemma OneHead(descs: seq<PageDesc>, p: nat, q: nat, r: nat)
    requires RunsOk(descs) && HeadOf(descs, q, p) && HeadOf(descs, r, p)
    ensures q == r
  {
    assert RunAt(descs, q, descs[q].nSpan) && RunAt(descs, r, descs[r].nSpan);
  }

  /** Walking back from a continuation page while pages are continuations ends at the head. */
  method FindHead(h: PageHeap, page: nat) returns (head: nat)
    requires h.Valid() && RunsOk(h.descs) && page < h.nPages && h.descs[page].kind == Large
    ensures HeadOf(h.descs, head, page)
  {
    head := page;
    if h.descs[page].IsLargeHead() { return; }
    ghost var q: nat :| HeadOf(h.descs, q, page);
    while head > 0 && h.descs[head].IsLargeCont()
      invariant q <= head <= page
    {
      assert RunAt(h.descs, q, h.descs[q].nSpan);
      head := head - 1;
    }
    OneHead(h.descs, page, q, q);
    assert RunAt(h.descs, q, h.descs[q].nSpan);
  }

  // -- Finding room ---------------------------------------------------------

  predicate FreeRun(descs: seq<PageDesc>, p: nat, n: nat) {
    p + n <= |descs| && forall i | p <= i < p + n :: descs[i].generation == Free
  }

  /** `find_contiguous_free_pages`: the lowest run of `n` Free pages, `None` exactly when there is none. */
  method FindContiguousFreePages(h: PageHeap, n: nat) returns (r: Option<nat>)
    requires h.Valid() && n >= 1
    ensures r.None? <==> forall p: nat :: !FreeRun(h.descs, p, n)
    ensures r.Some? ==> FreeRun(h.descs, r.value, n) && forall p: nat | p < r.value :: !FreeRun(h.descs, p, n)
  {
    var runStart, runLen := 0, 0;
    for i := 0 to h.nPages
      invariant runLen <= i && runLen < n
      invariant runLen > 0 ==> runStart + runLen == i
      invariant forall j | i - runLen <= j < i :: h.descs[j].generation == Free
      invariant i - runLen > 0 ==> h.descs[i - runLen - 1].generation != Free
      invariant forall p: nat | p + n <= i :: !FreeRun(h.descs, p, n)
    {
      if h.descs[i].generation == Free {
        if runLen == 0 { runStart := i; }
        runLen := runLen + 1;
        if runLen >= n {
          forall p: nat | p < runStart ensures !FreeRun(h.descs, p, n) {
            assert p + n <= i || p <= runStart - 1 < p + n;
          }
          assert FreeRun(h.descs, runStart, n);
          return Some(runStart);
        }
        forall p: nat | p + n <= i + 1 ensures !FreeRun(h.descs, p, n) {
          if p + n == i + 1 { assert p <= i - (runLen - 1) - 1 < p + n; }
        }
      } else {
        runLen := 0;
      }
    }
    return None;
  }

  // -- Allocating a run -----------------------------------------------------

  /** `n_span` is stored in sixteen bits. */
  function Span16(n: nat): nat { n % 0x1_0000 }

  function LargeDesc(gen: Generation, span: nat): PageDesc {
    FreshDesc(gen, Large).(wordsUsed := PAGE_CELLS, nSpan := span)
  }

  lemma LargeOpenedOk(v: View, committed: seq<bool>, p: nat, gen: Generation, span: nat)
    requires MemoryOk(v, committed) && p < |v.descs| && gen != Free
    ensures MemoryOk(View(ClearedOn(v.cells, p, 0), ClearedOn(v.starts, p, NoStart),
        v.descs[p := LargeDesc(gen, span)]),
                     committed[p := true])
  {
    var w := View(ClearedOn(v.cells, p, 0), ClearedOn(v.starts, p, NoStart), v.descs[p := LargeDesc(gen, span)]);
    var committed' := committed[p := true];
    forall c | 0 <= c < |w.cells| ensures CellZeroIfUnused(w, committed', c) {
      assert CellZeroIfUnused(v, committed, c);
    }
    forall c | 0 <= c < |w.starts| && IsObj(w, c)
      ensures c % PAGE_CELLS < w.descs[c / PAGE_CELLS].wordsUsed
              && (w.descs[c / PAGE_CELLS].kind == Cons ==> w.starts[c] == ConsStart)
    {
      assert c / PAGE_CELLS != p;
      assert IsObj(v, c);
    }
  }

  /** One page of a run: committed, stamped, zero, without starts. */
  method OpenLargePage(h: PageHeap, p: nat, gen: Generation, span: nat)
    requires h.Inv() && p < h.highWater && p < h.nPages && h.descs[p].generation == Free && gen != Free
    modifies h`descs, h`committed, h.cells, h.startTable.bits
    ensures h.Inv()
    ensures h.V() == View(ClearedOn(old(h.V()).cells, p, 0), ClearedOn(old(h.V()).starts, p, NoStart),
                          old(h.descs)[p := LargeDesc(gen, span)])
  {
    hide MemoryOk, CellZeroIfUnused, IsObj, Starts, GeoOk, WellPaired, RegionsOk;
    ghost var v, committed0 := h.V(), h.committed;
    var freshlyZeroed := h.CommitPage(p);
    var alreadyZero := freshlyZeroed || h.descs[p].zeroed;
    h.descs := h.descs[p := LargeDesc(gen, span)];
    if !alreadyZero {
      h.ZeroPage(p);
    } else if !freshlyZeroed {
      AlreadyZero(v, committed0, p);
    }
    h.ClearPageStarts(p);
    assert h.cells[..] == ClearedOn(v.cells, p, 0);
    LargeOpenedOk(v, committed0, p, gen, span);
    OpenedRegions(v.descs, h.regions, p, LargeDesc(gen, span));
  }

  /** The page table with a run of `n` pages at `p`. */
  predicate Stamped(before: seq<PageDesc>, after: seq<PageDesc>, p: nat, i: nat, n: nat, gen: Generation) {
    && |after| == |before| && p + i <= |before|
    && forall q | 0 <= q < |before| ::
         after[q] == if p <= q < p + i then LargeDesc(gen, if q == p then Span16(n) else 0) else before[q]
  }

  /** A run and a stretch of Free pages have no page in common. */
  lemma RunOutside(descs: seq<PageDesc>, q: nat, k: nat, p: nat, n: nat)
    requires RunAt(descs, q, k) && FreeRun(descs, p, n) && n >= 1
    ensures q + k <= p || p + n <= q
  {
    assert forall i | q <= i < q + k :: descs[i].generation != Free;
    var later := if p <= q then q else p;
    assert q <= later < q + k ==> descs[later].generation != Free;
  }

  /** Stamping a run keeps the run structure, as long as its length fits sixteen bits. */
  lemma StampedRuns(before: seq<PageDesc>, after: seq<PageDesc>, p: nat, n: nat, gen: Generation)
    requires RunsOk(before) && FreeRun(before, p, n) && 1 <= n < 0x1_0000 && gen != Free
    requires Stamped(before, after, p, n, n, gen)
    requires forall q | 0 <= q < |before| && before[q].generation == Free :: before[q].kind != Large
    ensures RunsOk(after) && RunAt(after, p, n)
  {
    forall q | 0 <= q < |after| && after[q].IsLargeHead() ensures RunAt(after, q, after[q].nSpan) {
      if q != p {
        assert RunAt(before, q, before[q].nSpan);
        RunOutside(before, q, before[q].nSpan, p, n);
      }
    }
    forall q | 0 <= q < |after| && after[q].IsLargeCont() ensures exists r: nat :: HeadOf(after, r, q) {
      if p <= q < p + n {
        assert HeadOf(after, p, q);
      } else {
        var r: nat :| HeadOf(before, r, q);
        RunOutside(before, r, before[r].nSpan, p, n);
        assert HeadOf(after, r, q);
      }
    }
  }

  /** A run of 65536 pages or a multiple is stamped with span 0: its head reads as a
      continuation page without a head. */
  lemma SpanWraps(before: seq<PageDesc>, after: seq<PageDesc>, p: nat, n: nat, gen: Generation)
    requires FreeRun(before, p, n) && 1 <= n && gen != Free && Stamped(before, after, p, n, n, gen)
    ensures RunAt(after, p, n) <==> n < 0x1_0000
  {
    if n < 0x1_0000 {
      assert after[p].nSpan == n;
    }
  }

  /** Lengths of Lisp objects are 24 bits wide, so no Lisp header asks for so long a run; a Tiny
      header holds any length. */
  lemma LispRunsFit(header: u64)
    ensures PagesFor(LispHeaderLayout(header).totalCells) <= 2048
    ensures PagesFor(TinyHeaderLayout(PAGE_CELLS * 0x1_0000 - 1).totalCells) == 0x1_0000
  {
    hide And;
    assert HeaderLength(header) <= LEN_MASK;
  }

  /** The cells of pages `p..p+n` set to `x`, everything else as in `before`. */
  predicate ClearedRun<T(==)>(before: seq<T>, after: seq<T>, p: nat, n: nat, x: T) {
    && |after| == |before|
    && forall c: nat | c < |before| :: after[c] == if p <= c / PAGE_CELLS < p + n then x else before[c]
  }

  lemma ClearedOneMore<T>(before: seq<T>, mid: seq<T>, p: nat, i: nat, x: T)
    requires ClearedRun(before, mid, p, i, x)
    ensures ClearedRun(before, ClearedOn(mid, p + i, x), p, i + 1, x)
  {
  }

  lemma StampedOneMore(before: seq<PageDesc>, mid: seq<PageDesc>, p: nat, i: nat, n: nat, gen: Generation)
    requires Stamped(before, mid, p, i, n, gen) && p + i < |before|
    ensures Stamped(before, mid[p + i := LargeDesc(gen, if i == 0 then Span16(n) else 0)], p, i + 1, n, gen)
  {
  }

  /** Commits and stamps the pages of a run. */
  method StampRun(h: PageHeap, p: nat, n: nat, gen: Generation)
    requires h.Inv() && gen != Free && FreeRun(h.descs, p, n) && p + n <= h.highWater
    modifies h`descs, h`committed, h.cells, h.startTable.bits
    ensures h.Inv()
    ensures Stamped(old(h.descs), h.descs, p, n, n, gen)
    ensures ClearedRun(old(h.V()).cells, h.V().cells, p, n, 0)
    ensures ClearedRun(old(h.V()).starts, h.V().starts, p, n, NoStart)
  {
    hide MemoryOk, Starts, GeoOk, WellPaired, RegionsOk, IsObj, PagesOk;
    ghost var v := h.V();
    StampedNone(v, p, n, gen);
    for i := 0 to n
      invariant h.Inv() && p + n <= h.highWater && p + n <= h.nPages && Stamped(v.descs, h.descs, p, i, n, gen)
      invariant ClearedRun(v.cells, h.V().cells, p, i, 0) && ClearedRun(v.starts, h.V().starts, p, i, NoStart)
    {
      ghost var u := h.V();
      StampedFree(v.descs, u.descs, p, i, n, gen);
      OpenLargePage(h, p + i, gen, if i == 0 then Span16(n) else 0);
      ClearedOneMore(v.cells, u.cells, p, i, 0);
      ClearedOneMore(v.starts, u.starts, p, i, NoStart);
      StampedOneMore(v.descs, u.descs, p, i, n, gen);
    }
  }

  lemma StampedNone(v: View, p: nat, n: nat, gen: Generation)
    requires FreeRun(v.descs, p, n)
    ensures Stamped(v.descs, v.descs, p, 0, n, gen)
    ensures ClearedRun(v.cells, v.cells, p, 0, 0) && ClearedRun(v.starts, v.starts, p, 0, NoStart)
  {
  }

  lemma StampedFree(before: seq<PageDesc>, mid: seq<PageDesc>, p: nat, i: nat, n: nat, gen: Generation)
    requires FreeRun(before, p, n) && Stamped(before, mid, p, i, n, gen) && i < n
    ensures p + i < |mid| && mid[p + i].generation == Free
  {
  }

  /** The pages of a run, with one header start at the first cell of its head. */
  predicate OneHeadStart(before: seq<Start>, after: seq<Start>, p: nat, n: nat) {
    && |after| == |before| && PAGE_CELLS * p < |after| && after[PAGE_CELLS * p] == HeaderStart
    && forall c: nat | c < |before| && c != PAGE_CELLS * p ::
         after[c] == if p <= c / PAGE_CELLS < p + n then NoStart else before[c]
  }

  /** What an allocation of `n` pages for `gen` does to the heap. */
  predicate RunAllocated(v: View, w: View, p: nat, n: nat, gen: Generation) {
    && FreeRun(v.descs, p, n) && (forall q: nat | q < p :: !FreeRun(v.descs, q, n))
    && Stamped(v.descs, w.descs, p, n, n, gen)
    && ClearedRun(v.cells, w.cells, p, n, 0)
    && OneHeadStart(v.starts, w.starts, p, n)
  }

  /** Stamps the run's pages and sets the one object start. */
  method OpenRun(h: PageHeap, p: nat, n: nat, gen: Generation)
    requires h.Inv() && gen != Free && n >= 1 && FreeRun(h.descs, p, n) && p + n <= h.highWater
    modifies h`descs, h`committed, h.cells, h.startTable.bits
    ensures h.Inv()
    ensures Stamped(old(h.descs), h.descs, p, n, n, gen)
    ensures ClearedRun(old(h.V()).cells, h.V().cells, p, n, 0)
    ensures OneHeadStart(old(h.V()).starts, h.V().starts, p, n)
  {
    hide MemoryOk, Starts, GeoOk, WellPaired, RegionsOk, IsObj, PagesOk, Stamped, ClearedRun, FreeRun, OneHeadStart;
    ghost var v := h.V();
    StampRun(h, p, n, gen);
    ghost var u := h.V();
    StampedHead(v, u, p, n, gen);
    StartRun(h, p);
    HeadStarted(v.starts, u.starts, h.V().starts, p, n);
  }

  function PagesFor(cells: nat): (n: nat)
    ensures n * PAGE_CELLS >= cells && (n >= 1 ==> (n - 1) * PAGE_CELLS < cells)
  {
    (cells + PAGE_CELLS - 1) / PAGE_CELLS
  }

  /** `try_alloc_large`: `None` exactly when the heap is poisoned, the nursery would
      outgrow its cap, or no run of Free pages is long enough; else the lowest such
      run becomes one zeroed object. A poisoned heap may be in any state. */
  method TryAllocLarge(h: PageHeap, cells: nat, gen: Generation) returns (r: Option<nat>)
    requires h.Valid() && (h.poisoned || (h.Inv() && RunsOk(h.descs))) && gen != Free && cells >= 1
    modifies h`descs, h`committed, h`highWater, h`bytesAlloc, h.cells, h.startTable.bits
    ensures h.Valid() && (old(h.Inv()) ==> h.Inv())
    ensures h.bytesAlloc == old(h.bytesAlloc) + if r.Some? then 8 * cells else 0
    ensures r.None? <==> (h.poisoned
                          || (gen == G0 && h.liveTarget != Some(G0)
                              && CountGen(old(h.descs), G0) + PagesFor(cells) > h.youngPageCap)
                          || forall p: nat :: !FreeRun(old(h.descs), p, PagesFor(cells)))
    ensures r.None? ==> h.V() == old(h.V())
    ensures r.Some? ==> RunAllocated(old(h.V()), h.V(), r.value, PagesFor(cells), gen)
    ensures r.Some? && PagesFor(cells) < 0x1_0000 ==> RunsOk(h.descs) && RunAt(h.descs, r.value, PagesFor(cells))
  {
    hide MemoryOk, Starts, GeoOk, WellPaired, RegionsOk, CountGen, IsObj, RunsOk, RunAt, PagesOk, Stamped, ClearedRun,
      FreeRun, OneHeadStart, PagesFor;
    if h.poisoned { return None; }
    var n := PagesFor(cells);
    if gen == G0 && h.liveTarget != Some(G0) && CountGen(h.descs, G0) + n > h.youngPageCap { return None; }
    var found := FindContiguousFreePages(h, n);
    if found.None? { return None; }
    var p := found.value;
    ghost var v := h.V();
    RunFits(v.descs, p, n);
    FreeAreSmall(v.descs, h.committed, h.freeList, h.highWater);
    if p + n > h.highWater {
      RaisedHighWater(h.descs, h.committed, h.freeList, h.highWater, p + n);
      h.highWater := p + n;
    }
    OpenRun(h, p, n, gen);
    h.bytesAlloc := h.bytesAlloc + 8 * cells;
    if n < 0x1_0000 { StampedRuns(v.descs, h.descs, p, n, gen); }
    return Some(p);
  }

  method StartRun(h: PageHeap, p: nat)
    requires h.Inv() && p < h.nPages && h.descs[p].kind == Large && h.descs[p].wordsUsed == PAGE_CELLS
    requires h.descs[p].generation != Free && PAGE_CELLS * p < |h.V().starts| && h.V().starts[PAGE_CELLS * p] == NoStart
    modifies h.startTable.bits
    ensures h.Inv()
    ensures h.V() == old(h.V()).(starts := old(h.V()).starts[PAGE_CELLS * p := HeaderStart])
  {
    hide MemoryOk, Starts, GeoOk, WellPaired, RegionsOk, IsObj, PagesOk;
    ghost var u := h.V();
    h.startTable.SetStart(PAGE_CELLS * p);
    StartLarge(u, h.committed, p);
  }

  lemma RunFits(descs: seq<PageDesc>, p: nat, n: nat)
    requires FreeRun(descs, p, n)
    ensures p + n <= |descs|
  {
  }

  lemma StampedHead(v: View, u: View, p: nat, n: nat, gen: Generation)
    requires Stamped(v.descs, u.descs, p, n, n, gen) && n >= 1
    requires |v.starts| == PAGE_CELLS * |v.descs| && ClearedRun(v.starts, u.starts, p, n, NoStart)
    ensures p < |u.descs| && u.descs[p].kind == Large && u.descs[p].wordsUsed == PAGE_CELLS
    ensures u.descs[p].generation == gen
    ensures PAGE_CELLS * p < |u.starts| && u.starts[PAGE_CELLS * p] == NoStart
  {
  }

  lemma HeadStarted(before: seq<Start>, mid: seq<Start>, after: seq<Start>, p: nat, n: nat)
    requires ClearedRun(before, mid, p, n, NoStart) && n >= 1
    requires PAGE_CELLS * p < |mid| && after == mid[PAGE_CELLS * p := HeaderStart]
    ensures OneHeadStart(before, after, p, n)
  {
  }

  lemma RaisedHighWater(descs: seq<PageDesc>, committed: seq<bool>, freeList: seq<nat>, highWater: nat, more: nat)
    requires |descs| == |committed| && PagesOk(descs, committed, freeList, highWater) && highWater <= more <= |descs|
    ensures PagesOk(descs, committed, freeList, more)
  {
  }

  lemma FreeAreSmall(descs: seq<PageDesc>, committed: seq<bool>, freeList: seq<nat>, highWater: nat)
    requires |descs| == |committed| && PagesOk(descs, committed, freeList, highWater)
    ensures forall q | 0 <= q < |descs| && descs[q].generation == Free :: descs[q].kind != Large
  {
  }

  lemma StartLarge(v: View, committed: seq<bool>, p: nat)
    requires MemoryOk(v, committed) && p < |v.descs| && v.descs[p].kind == Large && v.descs[p].wordsUsed == PAGE_CELLS
    requires v.descs[p].generation != Free
    ensures PAGE_CELLS * p < |v.starts| && MemoryOk(v.(starts := v.starts[PAGE_CELLS * p := HeaderStart]), committed)
  {
    var w := v.(starts := v.starts[PAGE_CELLS * p := HeaderStart]);
    forall c | 0 <= c < |w.cells| ensures CellZeroIfUnused(w, committed, c) {
      assert CellZeroIfUnused(v, committed, c);
    }
    forall c | 0 <= c < |w.starts| && IsObj(w, c)
      ensures c % PAGE_CELLS < w.descs[c / PAGE_CELLS].wordsUsed
              && (w.descs[c / PAGE_CELLS].kind == Cons ==> w.starts[c] == ConsStart)
    {
      if c != PAGE_CELLS * p { assert IsObj(v, c); }
    }
  }
}
