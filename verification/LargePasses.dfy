/** Large objects through one evacuation pass: the mark pins every run a visited
    slot points into, and the reclaim flips a pinned run whole, where it lies, and
    frees any other run whole. */
module LargePasses {
  import opened Bits
  import opened Bitmaps
  import opened Pages
  import opened Objects
  import opened PageHeaps
  import opened Alloc
  import opened LargeRuns
  import opened LargeMarking
  import opened EvacMarking

  // -- Reclaiming -----------------------------------------------------------

  function Flipped(d: PageDesc, dest: Generation): PageDesc { d.(generation := dest, pinByte := 0) }

  /** The first `i` pages of the run at `p` flipped: only the descriptors change, and
      continuation pages lose any start. */
  function FlippedRun(v: View, p: nat, i: nat, dest: Generation): View {
    View(v.cells,
         seq(|v.starts|, c requires 0 <= c < |v.starts| => if p < c / PAGE_CELLS < p + i then NoStart else v.starts[c]),
         seq(|v.descs|, q requires 0 <= q < |v.descs| => if p <= q < p + i then Flipped(v.descs[q],
             dest) else v.descs[q]))
  }

  /** The first `i` pages of the run at `p` released: zero, without starts, Free. */
  function ReleasedRun(v: View, p: nat, i: nat): View {
    View(seq(|v.cells|, c requires 0 <= c < |v.cells| => if p <= c / PAGE_CELLS < p + i then 0 else v.cells[c]),
         seq(|v.starts|,
             c requires 0 <= c < |v.starts| => if p <= c / PAGE_CELLS < p + i then NoStart else v.starts[c]),
         seq(|v.descs|, q requires 0 <= q < |v.descs| =>
           if p <= q < p + i then FREE_DESC.(zeroed := true) else v.descs[q]))
  }

  /** One page flipped in place. */
  method FlipLargePage(h: PageHeap, q: nat, dest: Generation, isHead: bool)
    requires h.Inv() && q < h.nPages && h.descs[q].kind == Large && h.descs[q].generation != Free && dest != Free
    modifies h`descs, h.startTable.bits
    ensures h.Inv()
    ensures h.V() == View(old(h.V()).cells, if isHead then old(h.V()).starts else ClearedOn(old(h.V()).starts, q,
        NoStart),
                          old(h.descs)[q := Flipped(old(h.descs)[q], dest)])
  {
    hide MemoryOk, Starts, GeoOk, WellPaired, RegionsOk, IsObj;
    ghost var v := h.V();
    h.descs := h.descs[q := Flipped(h.descs[q], dest)];
    if !isHead {
      h.ClearPageStarts(q);
    }
    LargePageFlipped(v, h.committed, h.regions, q, dest, h.V().starts);
  }

  lemma LargePageFlipped(v: View, committed: seq<bool>, regions: seq<AllocRegion>, q: nat, dest: Generation,
                         starts: seq<Start>)
    requires MemoryOk(v, committed) && |regions| == 6 && RegionsOk(v.descs, regions)
    requires q < |v.descs| && v.descs[q].kind == Large && v.descs[q].generation != Free && dest != Free
    requires |starts| == |v.starts| && forall c | 0 <= c < |starts| :: starts[c] == v.starts[c] || starts[c] == NoStart
    ensures MemoryOk(View(v.cells, starts, v.descs[q := Flipped(v.descs[q], dest)]), committed)
    ensures RegionsOk(v.descs[q := Flipped(v.descs[q], dest)], regions)
  {
    var w := View(v.cells, starts, v.descs[q := Flipped(v.descs[q], dest)]);
    forall c | 0 <= c < |w.cells| ensures CellZeroIfUnused(w, committed, c) {
      assert CellZeroIfUnused(v, committed, c);
    }
    forall c | 0 <= c < |w.starts| && IsObj(w, c)
      ensures c % PAGE_CELLS < w.descs[c / PAGE_CELLS].wordsUsed
              && (w.descs[c / PAGE_CELLS].kind == Cons ==> w.starts[c] == ConsStart)
    {
      assert IsObj(v, c);
    }
    forall i | 0 <= i < 6 && regions[i].currentPage.Some?
      ensures RegionOk(w.descs, regions[i], RegionGen(i), RegionKind(i)) {
      assert RegionOk(v.descs, regions[i], RegionGen(i), RegionKind(i));
    }
  }

  /** `decommit_page`: gives the memory back and clears the page's cards. */
  method DecommitPage(h: PageHeap, q: nat)
    requires h.Valid() && q < h.nPages
    modifies h`committed, h.cards
    ensures h.Valid() && h.committed == old(h.committed)[q := false]
    ensures forall k | 0 <= k < h.cards.Length ::
              h.cards[k] == (old(h.cards[k]) && !(old(h.committed)[q] && k / CARDS_PER_PAGE == q))
  {
    hide GeoOk, Starts, WellPaired;
    if !h.committed[q] {
      assert h.committed == h.committed[q := false];
      return;
    }
    h.committed := h.committed[q := false];
    for k := CARDS_PER_PAGE * q to CARDS_PER_PAGE * (q + 1)
      invariant h.Valid() && h.committed == old(h.committed)[q := false]
      invariant forall j | 0 <= j < h.cards.Length :: h.cards[j] == (old(h.cards[j]) && !(CARDS_PER_PAGE * q <= j < k))
    {
      h.cards[k] := false;
    }
  }

  /** One page of a dead run given back. */
  method ReleaseLargePage(h: PageHeap, q: nat)
    requires h.Inv() && q < h.nPages && h.descs[q].kind == Large && h.descs[q].generation != Free
    modifies h`descs, h`freeList, h`committed, h.cells, h.startTable.bits, h.cards
    ensures h.Inv()
    ensures h.V() == View(ClearedOn(old(h.V()).cells, q, 0), ClearedOn(old(h.V()).starts, q, NoStart),
                          old(h.descs)[q := FREE_DESC.(zeroed := true)])
  {
    hide MemoryOk, Starts, GeoOk, WellPaired, RegionsOk, IsObj;
    ghost var v, committed := h.V(), h.committed;
    h.ClearPageStarts(q);
    h.ZeroPage(q);
    ReleasePageToFree(h, q, true);
    ghost var w := h.V();
    DecommitPage(h, q);
    assert h.V() == w;
    LargePageReleased(v, committed, h.regions, q);
  }

  lemma LargePageReleased(v: View, committed: seq<bool>, regions: seq<AllocRegion>, q: nat)
    requires MemoryOk(v, committed) && |regions| == 6 && RegionsOk(v.descs, regions)
    requires q < |v.descs| && v.descs[q].kind == Large
    ensures MemoryOk(View(ClearedOn(v.cells, q, 0), ClearedOn(v.starts, q, NoStart),
        v.descs[q := FREE_DESC.(zeroed := true)]),
                     committed[q := false])
    ensures RegionsOk(v.descs[q := FREE_DESC.(zeroed := true)], regions)
  {
    var w := View(ClearedOn(v.cells, q, 0), ClearedOn(v.starts, q, NoStart), v.descs[q := FREE_DESC.(zeroed := true)]);
    var committed' := committed[q := false];
    forall c | 0 <= c < |w.cells| ensures CellZeroIfUnused(w, committed', c) {
      assert CellZeroIfUnused(v, committed, c);
    }
    forall c | 0 <= c < |w.starts| && IsObj(w, c)
      ensures c % PAGE_CELLS < w.descs[c / PAGE_CELLS].wordsUsed
              && (w.descs[c / PAGE_CELLS].kind == Cons ==> w.starts[c] == ConsStart)
    {
      assert IsObj(v, c);
    }
    forall i | 0 <= i < 6 && regions[i].currentPage.Some?
      ensures RegionOk(w.descs, regions[i], RegionGen(i), RegionKind(i)) {
      assert RegionOk(v.descs, regions[i], RegionGen(i), RegionKind(i));
    }
  }

  /** A live run flips whole. */
  method FlipRun(h: PageHeap, p: nat, dest: Generation)
    requires h.Inv() && p < h.nPages && RunAt(h.descs, p, h.descs[p].nSpan) && dest != Free
    modifies h`descs, h.startTable.bits
    ensures h.Inv() && h.V() == FlippedRun(old(h.V()), p, old(h.descs)[p].nSpan, dest)
  {
    hide MemoryOk, Starts, GeoOk, WellPaired, RegionsOk, IsObj, PagesOk, RunAt, FlippedRun, Flipped;
    ghost var v := h.V();
    var n := h.descs[p].nSpan;
    FlipNone(v, p, dest);
    for i := 0 to n
      invariant h.Inv() && h.V() == FlippedRun(v, p, i, dest)
    {
      FlipNext(v, p, i, dest);
      FlipLargePage(h, p + i, dest, i == 0);
    }
  }

  lemma FlipNone(v: View, p: nat, dest: Generation)
    ensures FlippedRun(v, p, 0, dest) == v
  {
  }

  lemma FlipNext(v: View, p: nat, i: nat, dest: Generation)
    requires p < |v.descs| && RunAt(v.descs, p, v.descs[p].nSpan) && i < v.descs[p].nSpan
    ensures var u := FlippedRun(v, p, i, dest);
      && |u.descs| == |v.descs| && p + i < |u.descs| && u.descs[p + i].kind == Large
            && u.descs[p + i].generation != Free
      && FlippedRun(v, p, i + 1, dest) ==
            View(u.cells, if i == 0 then u.starts else ClearedOn(u.starts, p + i, NoStart),
                                               u.descs[p + i := Flipped(u.descs[p + i], dest)])
  {
    var u := FlippedRun(v, p, i, dest);
    assert u.descs[p + i] == v.descs[p + i];
  }

  /** A dead run is freed whole. */
  method ReleaseRun(h: PageHeap, p: nat)
    requires h.Inv() && p < h.nPages && RunAt(h.descs, p, h.descs[p].nSpan)
    modifies h`descs, h`freeList, h`committed, h.cells, h.startTable.bits, h.cards
    ensures h.Inv() && h.V() == ReleasedRun(old(h.V()), p, old(h.descs)[p].nSpan)
  {
    hide MemoryOk, Starts, GeoOk, WellPaired, RegionsOk, IsObj, PagesOk, RunAt, ReleasedRun;
    ghost var v := h.V();
    var n := h.descs[p].nSpan;
    ReleaseNone(v, p);
    for i := 0 to n
      invariant h.Inv() && h.V() == ReleasedRun(v, p, i)
    {
      ReleaseNext(v, p, i);
      ReleaseLargePage(h, p + i);
    }
  }

  lemma ReleaseNone(v: View, p: nat)
    ensures ReleasedRun(v, p, 0) == v
  {
  }

  lemma ReleaseNext(v: View, p: nat, i: nat)
    requires p < |v.descs| && RunAt(v.descs, p, v.descs[p].nSpan) && i < v.descs[p].nSpan
    ensures var u := ReleasedRun(v, p, i);
      && |u.descs| == |v.descs| && p + i < |u.descs| && u.descs[p + i].kind == Large
            && u.descs[p + i].generation != Free
      && ReleasedRun(v, p, i + 1) == View(ClearedOn(u.cells, p + i, 0), ClearedOn(u.starts, p + i, NoStart),
                                          u.descs[p + i := FREE_DESC.(zeroed := true)])
  {
    var u := ReleasedRun(v, p, i);
    assert u.descs[p + i] == v.descs[p + i];
  }

  // -- A chunk of runs ------------------------------------------------------

  /** Page `q` belongs to a run of `heads`. */
  predicate InRuns(v: View, heads: set<nat>, q: nat) {
    q < |v.descs| && v.descs[q].kind == Large && HeadBack(v.descs, q) in heads
  }

  /** ... whose head has no pin, so that the run dies. */
  predicate InDeadRun(v: View, heads: set<nat>, q: nat) {
    InRuns(v, heads, q) && !v.descs[HeadBack(v.descs, q)].HasPins()
  }

  /** The heap after the runs of `heads` have been reclaimed. */
  function LargeReclaimed(v: View, heads: set<nat>, dest: Generation): View {
    View(seq(|v.cells|, c requires 0 <= c < |v.cells| => if InDeadRun(v, heads, c / PAGE_CELLS) then 0 else v.cells[c]),
         seq(|v.starts|, c requires 0 <= c < |v.starts| =>
           if InDeadRun(v, heads, c / PAGE_CELLS)
              || (InRuns(v, heads, c / PAGE_CELLS)
                  && !v.descs[c / PAGE_CELLS].IsLargeHead()) then NoStart else v.starts[c]),
         seq(|v.descs|, q requires 0 <= q < |v.descs| =>
           if InDeadRun(v, heads, q) then FREE_DESC.(zeroed := true)
           else if InRuns(v, heads, q) then Flipped(v.descs[q], dest) else v.descs[q]))
  }

  /** Heads among the first `i` pages of a chunk. */
  function ChunkHeads(descs: seq<PageDesc>, chunk: seq<nat>, i: nat): set<nat>
    requires i <= |chunk|
  {
    set j | 0 <= j < i && chunk[j] < |descs| && descs[chunk[j]].IsLargeHead() :: chunk[j]
  }

  /** The Large part of `phase3_reclaim`: continuation pages are left to their head,
      and pages an earlier head already gave back are skipped. */
  method ReclaimLargeChunk(h: PageHeap, dest: Generation, chunk: seq<nat>)
    requires h.Inv() && RunsOk(h.descs) && dest != Free
    requires forall i | 0 <= i < |chunk| :: chunk[i] < h.nPages && h.descs[chunk[i]].kind == Large
    requires forall i, j | 0 <= i < j < |chunk| :: chunk[i] != chunk[j]
    modifies h`descs, h`freeList, h`committed, h.cells, h.startTable.bits, h.cards
    ensures h.Inv()
    ensures h.V() == LargeReclaimed(old(h.V()), ChunkHeads(old(h.descs), chunk, |chunk|), dest)
    ensures RunsOk(h.descs)
  {
    hide MemoryOk, Starts, GeoOk, WellPaired, RegionsOk, IsObj, PagesOk, RunsOk, RunAt, HeadBack, LargeReclaimed,
      ChunkHeads, FlippedRun, ReleasedRun;
    ghost var v := h.V();
    NoHeadsYet(v, chunk, dest);
    for i := 0 to |chunk|
      invariant h.Inv() && h.V() == LargeReclaimed(v, ChunkHeads(v.descs, chunk, i), dest)
    {
      var p := chunk[i];
      ChunkPage(v, chunk, i, dest);
      if h.descs[p].generation == Free || h.descs[p].IsLargeCont() {
      } else if h.descs[p].IsLargeHead() {
        if h.descs[p].HasPins() {
          FlipRun(h, p, dest);
        } else {
          ReleaseRun(h, p);
        }
      }
    }
    ReclaimedRuns(v, ChunkHeads(v.descs, chunk, |chunk|), dest);
  }

  lemma NoHeadsYet(v: View, chunk: seq<nat>, dest: Generation)
    ensures LargeReclaimed(v, ChunkHeads(v.descs, chunk, 0), dest) == v
  {
    hide HeadBack;
  }

  /** What the loop meets at index `i`, and the heap it has to reach from there. */
  lemma ChunkPage(v: View, chunk: seq<nat>, i: nat, dest: Generation)
    requires RunsOk(v.descs) && dest != Free && i < |chunk| && chunk[i] < |v.descs| && v.descs[chunk[i]].kind == Large
    requires forall j | 0 <= j < i :: chunk[j] != chunk[i]
    ensures |LargeReclaimed(v, ChunkHeads(v.descs, chunk, i), dest).descs| == |v.descs|
    ensures var u, p := LargeReclaimed(v, ChunkHeads(v.descs, chunk, i), dest), chunk[i];
            var next := LargeReclaimed(v, ChunkHeads(v.descs, chunk, i + 1), dest);
      && (u.descs[p].generation == Free || u.descs[p].IsLargeCont() || u.descs[p].IsLargeHead())
      && (u.descs[p].generation == Free || u.descs[p].IsLargeCont() ==> next == u)
      && (u.descs[p].generation != Free && u.descs[p].IsLargeHead() ==>
            && RunAt(u.descs, p, u.descs[p].nSpan)
            && next == if u.descs[p].HasPins() then FlippedRun(u, p, u.descs[p].nSpan, dest)
                       else ReleasedRun(u, p, u.descs[p].nSpan))
  {
    var heads, p := ChunkHeads(v.descs, chunk, i), chunk[i];
    var u := LargeReclaimed(v, heads, dest);
    ChunkHeadsNext(v.descs, chunk, i);
    if v.descs[p].IsLargeHead() {
      UntouchedRun(v, heads, p, dest);
      RunReclaimed(v, heads, p, dest);
    }
  }

  lemma ChunkHeadsNext(descs: seq<PageDesc>, chunk: seq<nat>, i: nat)
    requires i < |chunk| && chunk[i] < |descs|
    ensures ChunkHeads(descs, chunk, i + 1) ==
            ChunkHeads(descs, chunk, i) + (if descs[chunk[i]].IsLargeHead() then {chunk[i]} else {})
  {
  }

  /** A run whose head is not among `heads` is as it was. */
  lemma UntouchedRun(v: View, heads: set<nat>, p: nat, dest: Generation)
    requires RunsOk(v.descs) && p < |v.descs| && v.descs[p].IsLargeHead() && p !in heads
    ensures var u := LargeReclaimed(v, heads, dest);
      && |u.descs| == |v.descs| && RunAt(u.descs, p, v.descs[p].nSpan) && u.descs[p] == v.descs[p]
  {
    hide HeadBack;
    assert RunAt(v.descs, p, v.descs[p].nSpan);
    forall q | p <= q < p + v.descs[p].nSpan ensures !InRuns(v, heads, q) {
      InRun(v.descs, p, q);
    }
  }

  /** Reclaiming one more run. */
  lemma RunReclaimed(v: View, heads: set<nat>, p: nat, dest: Generation)
    requires RunsOk(v.descs) && p < |v.descs| && v.descs[p].IsLargeHead() && p !in heads
    ensures LargeReclaimed(v, heads + {p}, dest) ==
            if v.descs[p].HasPins() then FlippedRun(LargeReclaimed(v, heads, dest), p, v.descs[p].nSpan, dest)
            else ReleasedRun(LargeReclaimed(v, heads, dest), p, v.descs[p].nSpan)
  {
    hide HeadBack, RunsOk;
    forall q | 0 <= q < |v.descs|
      ensures InRuns(v, heads + {p}, q) <==> InRuns(v, heads, q) || p <= q < p + v.descs[p].nSpan
      ensures p <= q < p + v.descs[p].nSpan ==>
                v.descs[q].kind == Large && HeadBack(v.descs, q) == p && !InRuns(v, heads, q)
      ensures p < q < p + v.descs[p].nSpan ==> !v.descs[q].IsLargeHead()
    {
      PageOfRun(v, heads, p, q);
    }
    var next, u, k := LargeReclaimed(v, heads + {p}, dest), LargeReclaimed(v, heads, dest), v.descs[p].nSpan;
    var w := if v.descs[p].HasPins() then FlippedRun(u, p, k, dest) else ReleasedRun(u, p, k);
    forall q | 0 <= q < |v.descs| ensures next.descs[q] == w.descs[q] {
      PageOfRun(v, heads, p, q);
    }
    assert next.descs == w.descs;
    SameOnCells(v, heads, p, dest);
  }

  lemma SameOnCells(v: View, heads: set<nat>, p: nat, dest: Generation)
    requires RunsOk(v.descs) && p < |v.descs| && v.descs[p].IsLargeHead() && p !in heads
    ensures var u, next := LargeReclaimed(v, heads, dest), LargeReclaimed(v, heads + {p}, dest);
            var w := if v.descs[p].HasPins() then FlippedRun(u, p, v.descs[p].nSpan, dest) else ReleasedRun(u, p,
              v.descs[p].nSpan);
      next.cells == w.cells && next.starts == w.starts
  {
    hide HeadBack, RunsOk;
    var u, next := LargeReclaimed(v, heads, dest), LargeReclaimed(v, heads + {p}, dest);
    var w := if v.descs[p].HasPins() then FlippedRun(u, p, v.descs[p].nSpan, dest) else ReleasedRun(u, p,
      v.descs[p].nSpan);
    RunBounds(v.descs, p);
    forall c | 0 <= c < |v.cells| ensures next.cells[c] == w.cells[c] {
      if c / PAGE_CELLS < |v.descs| { PageOfRun(v, heads, p, c / PAGE_CELLS); }
    }
    forall c | 0 <= c < |v.starts| ensures next.starts[c] == w.starts[c] {
      if c / PAGE_CELLS < |v.descs| { PageOfRun(v, heads, p, c / PAGE_CELLS); }
    }
  }

  lemma PageOfRun(v: View, heads: set<nat>, p: nat, q: nat)
    requires RunsOk(v.descs) && p < |v.descs| && v.descs[p].IsLargeHead() && p !in heads && q < |v.descs|
    ensures InRuns(v, heads + {p}, q) <==> InRuns(v, heads, q) || p <= q < p + v.descs[p].nSpan
    ensures p <= q < p + v.descs[p].nSpan ==>
              v.descs[q].kind == Large && HeadBack(v.descs, q) == p && !InRuns(v, heads, q)
    ensures p < q < p + v.descs[p].nSpan ==> !v.descs[q].IsLargeHead()
  {
    hide HeadBack;
    assert RunAt(v.descs, p, v.descs[p].nSpan);
    if v.descs[q].kind == Large { InRun(v.descs, p, q); }
  }

  /** What is left is again a heap of whole runs. */
  lemma ReclaimedRuns(v: View, heads: set<nat>, dest: Generation)
    requires RunsOk(v.descs) && dest != Free
    ensures RunsOk(LargeReclaimed(v, heads, dest).descs)
  {
    var w := LargeReclaimed(v, heads, dest);
    forall p | 0 <= p < |w.descs| && w.descs[p].IsLargeHead() ensures RunAt(w.descs, p, w.descs[p].nSpan) {
      RunSurvives(v, heads, p, dest);
    }
    forall q | 0 <= q < |w.descs| && w.descs[q].IsLargeCont() ensures exists p: nat :: HeadOf(w.descs, p, q) {
      BackIsHead(v.descs, q);
      var p := HeadBack(v.descs, q);
      BackInside(v.descs, p, v.descs[p].nSpan, p);
      assert HeadOf(w.descs, p, q);
    }
  }

  lemma RunSurvives(v: View, heads: set<nat>, p: nat, dest: Generation)
    requires RunsOk(v.descs) && dest != Free && p < |v.descs| && LargeReclaimed(v, heads, dest).descs[p].IsLargeHead()
    ensures var w := LargeReclaimed(v, heads, dest); RunAt(w.descs, p, w.descs[p].nSpan)
  {
    hide HeadBack;
    assert RunAt(v.descs, p, v.descs[p].nSpan);
    forall q | p <= q < p + v.descs[p].nSpan
      ensures v.descs[q].kind == Large && HeadBack(v.descs, q) == p
    {
      assert v.descs[q].kind == Large;
      InRun(v.descs, p, q);
    }
  }

  // -- One pass -------------------------------------------------------------

  /** The Large pages of `from`, in ascending order. */
  function LargeIn(descs: seq<PageDesc>, from: Generation): (ps: seq<nat>)
    ensures forall i | 0 <= i < |ps| :: ps[i] < |descs| && descs[ps[i]].kind == Large && descs[ps[i]].generation == from
    ensures forall i, j | 0 <= i < j < |ps| :: ps[i] < ps[j]
    ensures forall p | 0 <= p < |descs| && descs[p].kind == Large && descs[p].generation == from :: p in ps
  {
    if descs == [] then [] else
      var n := |descs| - 1;
      var rest := LargeIn(descs[..n], from);
      assert forall p | 0 <= p < n :: descs[..n][p] == descs[p];
      if descs[n].kind == Large && descs[n].generation == from then rest + [n] else rest
  }

  /** The run at `p` was flipped whole, every cell of it in place. */
  predicate RunKept(v: View, w: View, p: nat, k: nat, dest: Generation) {
    && |w.descs| == |v.descs| && |w.cells| == |v.cells| && |w.starts| == |v.starts| && p + k <= |v.descs|
    && (forall q | p <= q < p + k :: w.descs[q] == Flipped(v.descs[q], dest))
    && (forall c: nat | c < |v.cells| && p <= c / PAGE_CELLS < p + k :: w.cells[c] == v.cells[c])
    && (forall c: nat | c < |v.starts| && p <= c / PAGE_CELLS < p + k ::
          w.starts[c] == if c / PAGE_CELLS == p then v.starts[c] else NoStart)
  }

  /** The run at `p` was freed whole. */
  predicate RunFreed(v: View, w: View, p: nat, k: nat) {
    && |w.descs| == |v.descs| && |w.cells| == |v.cells| && |w.starts| == |v.starts| && p + k <= |v.descs|
    && (forall q | p <= q < p + k :: w.descs[q] == FREE_DESC.(zeroed := true))
    && (forall c: nat | c < |v.cells| && p <= c / PAGE_CELLS < p + k :: w.cells[c] == 0)
    && (forall c: nat | c < |v.starts| && p <= c / PAGE_CELLS < p + k :: w.starts[c] == NoStart)
  }

  /** A page that is in no run of generation `from`. */
  predicate OtherPage(descs: seq<PageDesc>, from: Generation, q: nat) {
    q < |descs| && !(descs[q].kind == Large && descs[q].generation == from)
  }

  /** Large objects through one pass whose source runs all lie in one chunk: a run that some visited
      word reaches, through whatever small and Large objects, or that was already pinned, flips whole
      and does not move; every other run of the source generation is freed whole; no other page
      changes. */
  method LargePass(h: PageHeap, words: seq<u64>, from: Generation, dest: Generation)
    requires h.Inv() && MixedOk(h.Geo(), h.V()) && from != Free && dest != Free
    modifies h`descs, h`freeList, h`committed, h`pinnedCells, h.cells, h.startTable.bits, h.markTable.bits, h.cards
    ensures h.Inv() && RunsOk(h.descs)
    ensures forall p | 0 <= p < h.nPages && old(h.descs)[p].IsLargeHead() && old(h.descs)[p].generation == from ::
              if Reached(h.Geo(), old(h.V()), from, Leads(h.Geo(), old(h.V()), from, words), PAGE_CELLS * p)
                 || old(h.descs)[p].HasPins()
              then RunKept(old(h.V()), h.V(), p, old(h.descs)[p].nSpan, dest)
              else RunFreed(old(h.V()), h.V(), p, old(h.descs)[p].nSpan)
    ensures forall q | 0 <= q < h.nPages && OtherPage(old(h.descs), from, q) :: h.descs[q] == old(h.descs)[q]
    ensures forall c | 0 <= c < PAGE_CELLS * h.nPages && OtherPage(old(h.descs), from, c / PAGE_CELLS) ::
              h.V().cells[c] == old(h.V()).cells[c] && h.V().starts[c] == old(h.V()).starts[c]
    ensures h.pinnedCells == old(h.pinnedCells) + set p | 0 <= p < h.nPages && old(h.descs)[p].IsLargeHead()
              && old(h.descs)[p].generation == from
              && Reached(h.Geo(), old(h.V()), from, Leads(h.Geo(), old(h.V()), from, words), PAGE_CELLS * p) ::
                    PAGE_CELLS * p
  {
    hide MemoryOk, Starts, GeoOk, WellPaired, RegionsOk, IsObj, PagesOk, RunsOk, RunAt, HeadBack, LargeReclaimed,
      ChunkHeads, RunKept, RunFreed, OtherPage, Marks, Reached, Leads, MixedOk, CardsClean, MarkState, Marked;
    ghost var v, g, pins := h.V(), h.Geo(), h.pinnedCells;
    MixedMarkable(h, from);
    MarkMixed(h, words, from);
    ghost var marks := h.markTable.Map();
    ghost var hit, u := MarkedHeads(v, from, marks), h.V();
    StateAfter(h, v, from, pins);
    HeadsReached(g, v, from, Leads(g, v, from, words), marks);
    PinsOnly(v, u, hit);
    PinTables(v, u, h.committed, h.freeList, h.highWater, h.regions);
    PinnedSame(v.descs, hit);
    SameRunsOk(v.descs, h.descs);
    var chunk := LargeIn(h.descs, from);
    ReclaimLargeChunk(h, dest, chunk);
    forall p | 0 <= p < h.nPages && v.descs[p].IsLargeHead() && v.descs[p].generation == from
      ensures if p in hit || v.descs[p].HasPins() then RunKept(v, h.V(), p, v.descs[p].nSpan, dest)
              else RunFreed(v, h.V(), p, v.descs[p].nSpan)
    {
      RunOutcome(v, u, hit, from, dest, chunk, p);
    }
    OthersUntouched(v, u, hit, from, dest, chunk);
  }

  lemma MixedMarkable(h: PageHeap, from: Generation)
    requires h.Inv() && MixedOk(h.Geo(), h.V()) && from != Free
    ensures Markable(h.Geo(), h.V(), from) && RunsOk(h.descs)
  {
    hide Starts, GeoOk, WellPaired, RegionsOk, CardsClean, RunsOk, ObjOk, LargeOk, CellZeroIfUnused;
  }

  lemma StateAfter(h: PageHeap, v: View, from: Generation, pins: set<nat>)
    requires MarkState(h, v, from, pins)
    ensures h.Valid() && h.V().cells == v.cells && h.V().starts == v.starts
    ensures h.descs == RunsPinned(v.descs, MarkedHeads(v, from, h.markTable.Map()))
    ensures h.pinnedCells == pins + HeadCells(MarkedHeads(v, from, h.markTable.Map()))
  {
  }

  /** The marked heads are those of the runs reached. */
  lemma HeadsReached(g: Geometry, v: View, from: Generation, seeds: set<nat>, marks: seq<bool>)
    requires Shaped(g, v) && |marks| == |v.starts|
    requires forall c: nat :: c in Marked(v, from, marks) <==> Reached(g, v, from, seeds, c)
    ensures forall p | p in MarkedHeads(v, from, marks) ::
              p < |v.descs| && v.descs[p].IsLargeHead() && v.descs[p].generation == from
    ensures forall p: nat | p < |v.descs| && v.descs[p].IsLargeHead() && v.descs[p].generation == from ::
              p in MarkedHeads(v, from, marks) <==> Reached(g, v, from, seeds, PAGE_CELLS * p)
    ensures HeadCells(MarkedHeads(v, from, marks)) == set p | 0 <= p < |v.descs| && v.descs[p].IsLargeHead()
              && v.descs[p].generation == from && Reached(g, v, from, seeds, PAGE_CELLS * p) :: PAGE_CELLS * p
  {
    hide Reached;
    forall p: nat | p < |v.descs| && v.descs[p].IsLargeHead() && v.descs[p].generation == from
      ensures p in MarkedHeads(v, from, marks) <==> Reached(g, v, from, seeds, PAGE_CELLS * p)
    {
      assert (PAGE_CELLS * p) / PAGE_CELLS == p && (PAGE_CELLS * p) % PAGE_CELLS == 0;
      assert PAGE_CELLS * p in Marked(v, from, marks) <==> Reached(g, v, from, seeds, PAGE_CELLS * p);
    }
  }

  lemma PinsOnly(v: View, u: View, hit: set<nat>)
    requires u.cells == v.cells && u.starts == v.starts && u.descs == RunsPinned(v.descs, hit)
    ensures PinBytesOnly(v, u)
  {
    hide HeadBack;
  }

  lemma HeadInChunk(descs: seq<PageDesc>, from: Generation, chunk: seq<nat>, p: nat)
    requires chunk == LargeIn(descs, from) && p < |descs| && descs[p].IsLargeHead()
    ensures p in ChunkHeads(descs, chunk, |chunk|) <==> descs[p].generation == from
  {
    if descs[p].generation == from { assert p in chunk; }
  }

  lemma RunOutcome(v: View, u: View, hit: set<nat>, from: Generation, dest: Generation, chunk: seq<nat>, p: nat)
    requires RunsOk(v.descs) && u.cells == v.cells && u.starts == v.starts && u.descs == RunsPinned(v.descs, hit)
    requires chunk == LargeIn(u.descs, from)
    requires p < |v.descs| && v.descs[p].IsLargeHead() && v.descs[p].generation == from
    ensures var w, k := LargeReclaimed(u, ChunkHeads(u.descs, chunk, |chunk|), dest), v.descs[p].nSpan;
      if p in hit || v.descs[p].HasPins() then RunKept(v, w, p, k, dest) else RunFreed(v, w, p, k)
  {
    hide HeadBack, RunsOk, ChunkHeads, LargeReclaimed, RunKept, RunFreed, Flipped;
    var heads := ChunkHeads(u.descs, chunk, |chunk|);
    PinnedSame(v.descs, hit);
    SameRunsOk(v.descs, u.descs);
    HeadInChunk(u.descs, from, chunk, p);
    RunBounds(v.descs, p);
    PinBits(v.descs[p], 0, 0);
    InRun(v.descs, p, p);
    forall q | p <= q < p + v.descs[p].nSpan
      ensures PageTaken(u, heads, p, q) && u.descs[q].(pinByte := 0) == v.descs[q].(pinByte := 0) {
      InRun(u.descs, p, q);
      PageOfRun(u, {}, p, q);
    }
    if u.descs[p].HasPins() {
      RunTakenKept(v, u, heads, p, v.descs[p].nSpan, dest);
    } else {
      RunTakenFreed(v, u, heads, p, v.descs[p].nSpan, dest);
    }
  }

  /** Page `q` belongs to the run at `p`, one of `heads`. */
  predicate PageTaken(u: View, heads: set<nat>, p: nat, q: nat) {
    InRuns(u, heads, q) && HeadBack(u.descs, q) == p && (q > p ==> !u.descs[q].IsLargeHead())
  }

  lemma RunTakenKept(v: View, u: View, heads: set<nat>, p: nat, k: nat, dest: Generation)
    requires u.cells == v.cells && u.starts == v.starts && |u.descs| == |v.descs| && p + k <= |v.descs| && k >= 1
    requires forall q | p <= q < p + k ::
               PageTaken(u, heads, p, q) && u.descs[q].(pinByte := 0) == v.descs[q].(pinByte := 0)
    requires u.descs[p].HasPins() && u.descs[p].IsLargeHead()
    ensures RunKept(v, LargeReclaimed(u, heads, dest), p, k, dest)
  {
    hide HeadBack;
    forall q | p <= q < p + k
      ensures LargeReclaimed(u, heads, dest).descs[q] == Flipped(v.descs[q], dest)
    {
      assert PageTaken(u, heads, p, q);
      assert Flipped(u.descs[q], dest) == Flipped(u.descs[q].(pinByte := 0), dest);
    }
    forall c: nat | c < |v.cells| && p <= c / PAGE_CELLS < p + k
      ensures LargeReclaimed(u, heads, dest).cells[c] == v.cells[c] {
      assert PageTaken(u, heads, p, c / PAGE_CELLS);
    }
    forall c: nat | c < |v.starts| && p <= c / PAGE_CELLS < p + k
      ensures LargeReclaimed(u, heads, dest).starts[c] == if c / PAGE_CELLS == p then v.starts[c] else NoStart
    {
      assert PageTaken(u, heads, p, c / PAGE_CELLS);
    }
  }

  lemma RunTakenFreed(v: View, u: View, heads: set<nat>, p: nat, k: nat, dest: Generation)
    requires u.cells == v.cells && u.starts == v.starts && |u.descs| == |v.descs| && p + k <= |v.descs| && k >= 1
    requires forall q | p <= q < p + k :: PageTaken(u, heads, p, q)
    requires !u.descs[p].HasPins()
    ensures RunFreed(v, LargeReclaimed(u, heads, dest), p, k)
  {
    hide HeadBack;
    forall q | p <= q < p + k ensures InDeadRun(u, heads, q) {
      assert PageTaken(u, heads, p, q);
    }
  }

  lemma OthersUntouched(v: View, u: View, hit: set<nat>, from: Generation, dest: Generation, chunk: seq<nat>)
    requires RunsOk(v.descs) && u.cells == v.cells && u.starts == v.starts && u.descs == RunsPinned(v.descs, hit)
    requires chunk == LargeIn(u.descs, from)
    requires forall p | p in hit :: p < |v.descs| && v.descs[p].IsLargeHead() && v.descs[p].generation == from
    ensures var w := LargeReclaimed(u, ChunkHeads(u.descs, chunk, |chunk|), dest);
      && |w.descs| == |v.descs| && |w.cells| == |v.cells| && |w.starts| == |v.starts|
      && (forall q | 0 <= q < |v.descs| && OtherPage(v.descs, from, q) :: w.descs[q] == v.descs[q])
      && (forall c | 0 <= c < |v.cells| && OtherPage(v.descs, from, c / PAGE_CELLS) :: w.cells[c] == v.cells[c])
      && (forall c | 0 <= c < |v.starts| && OtherPage(v.descs, from, c / PAGE_CELLS) :: w.starts[c] == v.starts[c])
  {
    hide HeadBack, RunsOk, ChunkHeads;
    var heads := ChunkHeads(u.descs, chunk, |chunk|);
    PinnedSame(v.descs, hit);
    SameRunsOk(v.descs, u.descs);
    forall q | 0 <= q < |v.descs| && OtherPage(v.descs, from, q)
      ensures !InRuns(u, heads, q) && u.descs[q] == v.descs[q]
    {
      if v.descs[q].kind == Large {
        BackGen(v.descs, q);
        BackGen(u.descs, q);
        SameBack(v.descs, u.descs, q);
        HeadInChunk(u.descs, from, chunk, HeadBack(u.descs, q));
      }
    }
  }

  lemma BackGen(descs: seq<PageDesc>, q: nat)
    requires RunsOk(descs) && q < |descs| && descs[q].kind == Large
    ensures descs[HeadBack(descs, q)].IsLargeHead() && descs[HeadBack(descs, q)].generation == descs[q].generation
  {
    BackIsHead(descs, q);
  }
}
