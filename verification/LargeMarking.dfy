/** The mark that the evacuator runs itself, over small and Large objects: it pins every run it
    reaches and follows the fields of a run over all its pages. */
module LargeMarking {
  import opened Bits
  import opened Options
  import opened Bitmaps
  import opened Layouts
  import opened Pages
  import opened Objects
  import opened PageHeaps
  import opened Marking
  import opened LargeRuns

  // -- The head of a page ---------------------------------------------------

  /** The page reached by walking back from `q` over continuation pages. */
  function HeadBack(descs: seq<PageDesc>, q: nat): (p: nat)
    requires q < |descs|
    ensures p <= q
  {
    if q == 0 || !descs[q].IsLargeCont() then q else HeadBack(descs, q - 1)
  }

  lemma {:induction false} BackInside(descs: seq<PageDesc>, p: nat, k: nat, q: nat)
    requires RunAt(descs, p, k) && p <= q < p + k
    ensures HeadBack(descs, q) == p
  {
    if q > p { BackInside(descs, p, k, q - 1); }
  }

  /** On a heap of whole runs the walk ends at the page's one head. */
  lemma BackIsHead(descs: seq<PageDesc>, q: nat)
    requires RunsOk(descs) && q < |descs| && descs[q].kind == Large
    ensures HeadOf(descs, HeadBack(descs, q), q) && RunAt(descs, HeadBack(descs, q), descs[HeadBack(descs, q)].nSpan)
  {
    if descs[q].IsLargeHead() {
      assert RunAt(descs, q, descs[q].nSpan);
    } else {
      var p: nat :| HeadOf(descs, p, q);
      assert RunAt(descs, p, descs[p].nSpan);
      BackInside(descs, p, descs[p].nSpan, q);
    }
  }

  /** A Large page belongs to the run at `p` exactly if it lies within its span. */
  lemma InRun(descs: seq<PageDesc>, p: nat, q: nat)
    requires RunsOk(descs) && p < |descs| && descs[p].IsLargeHead() && q < |descs| && descs[q].kind == Large
    ensures HeadBack(descs, q) == p <==> p <= q < p + descs[p].nSpan
  {
    assert RunAt(descs, p, descs[p].nSpan);
    if p <= q < p + descs[p].nSpan { BackInside(descs, p, descs[p].nSpan, q); }
    BackIsHead(descs, q);
  }

  /** Same kinds and spans: the same runs. */
  ghost predicate SameRuns(a: seq<PageDesc>, b: seq<PageDesc>) {
    && |a| == |b|
    && forall q | 0 <= q < |a| :: a[q].kind == b[q].kind && a[q].nSpan == b[q].nSpan
          && a[q].generation == b[q].generation
  }

  lemma {:induction false} SameBack(a: seq<PageDesc>, b: seq<PageDesc>, q: nat)
    requires SameRuns(a, b) && q < |a|
    ensures HeadBack(a, q) == HeadBack(b, q)
  {
    assert a[q].IsLargeCont() == b[q].IsLargeCont();
    if q > 0 && a[q].IsLargeCont() { SameBack(a, b, q - 1); }
  }

  lemma SameRunsOk(a: seq<PageDesc>, b: seq<PageDesc>)
    requires SameRuns(a, b) && RunsOk(a)
    ensures RunsOk(b)
  {
    forall p | 0 <= p < |b| && b[p].IsLargeHead() ensures RunAt(b, p, b[p].nSpan) {
      assert RunAt(a, p, a[p].nSpan);
    }
    forall q | 0 <= q < |b| && b[q].IsLargeCont() ensures exists p: nat :: HeadOf(b, p, q) {
      var p: nat :| HeadOf(a, p, q);
      assert HeadOf(b, p, q);
    }
  }

  // -- What a word leads to -------------------------------------------------

  /** The object that the mark pass follows `w` to: the head of the run for a word into a Large
      page, whatever its tag and wherever in the run; a start of the tagged shape elsewhere. */
  function Lead(g: Geometry, v: View, from: Generation, w: u64): Option<nat>
    requires Shaped(g, v)
  {
    if !InHeap(g, w) || v.descs[CellOf(g, w) / PAGE_CELLS].generation != from then None
    else if v.descs[CellOf(g, w) / PAGE_CELLS].kind == Large
        then Some(PAGE_CELLS * HeadBack(v.descs, CellOf(g, w) / PAGE_CELLS))
    else if v.starts[CellOf(g, w)] != NoStart && (g.layout.classify(w).PointerCons? <==>
        v.starts[CellOf(g, w)] == ConsStart)
    then Some(CellOf(g, w))
    else None
  }

  /** Field `i` of the object at `s` leads to `t`; the fields of a Large object lie on all pages of its run. */
  predicate PointsAt(g: Geometry, v: View, from: Generation, s: nat, i: nat, t: nat)
    requires Shaped(g, v)
  {
    s < |v.starts| && s + i < |v.cells| && IsPtrOff(g, v, s, i) && Lead(g, v, from, v.cells[s + i]) == Some(t)
  }

  ghost predicate Points(g: Geometry, v: View, from: Generation, s: nat, t: nat)
    requires Shaped(g, v)
  {
    exists i: nat :: PointsAt(g, v, from, s, i, t)
  }

  ghost predicate IsTrail(g: Geometry, v: View, from: Generation, seeds: set<nat>, trail: seq<nat>)
    requires Shaped(g, v)
  {
    && |trail| >= 1 && trail[0] in seeds
    && forall k | 0 <= k < |trail| - 1 :: Points(g, v, from, trail[k], trail[k + 1])
  }

  /** `c`, small or Large, is reached from one of the seeds. */
  ghost predicate Reached(g: Geometry, v: View, from: Generation, seeds: set<nat>, c: nat)
    requires Shaped(g, v)
  {
    exists trail: seq<nat> :: IsTrail(g, v, from, seeds, trail) && trail[|trail| - 1] == c
  }

  /** Where the given words lead. */
  function Leads(g: Geometry, v: View, from: Generation, words: seq<u64>): set<nat>
    requires Shaped(g, v)
  {
    set i | 0 <= i < |words| && Lead(g, v, from, words[i]).Some? :: Lead(g, v, from, words[i]).value
  }

  lemma ReachedSeed(g: Geometry, v: View, from: Generation, seeds: set<nat>, c: nat)
    requires Shaped(g, v) && c in seeds
    ensures Reached(g, v, from, seeds, c)
  {
    assert IsTrail(g, v, from, seeds, [c]);
  }

  lemma ReachedNext(g: Geometry, v: View, from: Generation, seeds: set<nat>, s: nat, t: nat)
    requires Shaped(g, v) && Reached(g, v, from, seeds, s) && Points(g, v, from, s, t)
    ensures Reached(g, v, from, seeds, t)
  {
    var trail :| IsTrail(g, v, from, seeds, trail) && trail[|trail| - 1] == s;
    var longer := trail + [t];
    forall k | 0 <= k < |longer| - 1 ensures Points(g, v, from, longer[k], longer[k + 1]) {
      if k < |trail| - 1 { assert longer[k] == trail[k] && longer[k + 1] == trail[k + 1]; }
    }
    assert IsTrail(g, v, from, seeds, longer);
  }

  /** A set that holds the seeds and whatever its members point to holds all that is reached. */
  lemma {:induction false} ReachedInside(g: Geometry, v: View, from: Generation, seeds: set<nat>, inside: set<nat>,
                                         trail: seq<nat>)
    requires Shaped(g, v) && IsTrail(g, v, from, seeds, trail) && seeds <= inside
    requires forall s, t | s in inside && Points(g, v, from, s, t) :: t in inside
    ensures trail[|trail| - 1] in inside
    decreases |trail|
  {
    if |trail| > 1 {
      var n := |trail| - 1;
      var front := trail[..n];
      assert IsTrail(g, v, from, seeds, front) by {
        forall k | 0 <= k < |front| - 1 ensures Points(g, v, from, front[k], front[k + 1]) {
          assert Points(g, v, from, trail[k], trail[k + 1]);
        }
      }
      ReachedInside(g, v, from, seeds, inside, front);
      assert Points(g, v, from, trail[n - 1], trail[n - 1 + 1]);
    }
  }

  // -- A heap with objects of both kinds ------------------------------------

  /** A Large object: a start and a header on the first cell of its head page, its fields within its run. */
  predicate LargeOk(g: Geometry, v: View, p: nat)
    requires Shaped(g, v) && p < |v.descs|
  {
    var c := PAGE_CELLS * p;
    && v.starts[c] == HeaderStart && g.layout.decodes(v.cells[c])
    && (LayoutAt(g, v, c).ptrStart < LayoutAt(g, v, c).ptrEnd ==>
          LayoutAt(g, v, c).ptrEnd <= PAGE_CELLS * v.descs[p].nSpan)
  }

  ghost predicate MixedOk(g: Geometry, v: View) {
    && Shaped(g, v) && RunsOk(v.descs)
    && (forall s: nat | IsObj(v, s) && v.descs[s / PAGE_CELLS].kind != Large :: ObjOk(g, v, s))
    && (forall p | 0 <= p < |v.descs| && v.descs[p].IsLargeHead() :: LargeOk(g, v, p))
  }

  /** An object of generation `from`, small or Large. */
  predicate Node(v: View, from: Generation, c: nat) {
    && c < |v.starts| && c / PAGE_CELLS < |v.descs| && v.descs[c / PAGE_CELLS].generation == from
    && if v.descs[c / PAGE_CELLS].kind == Large then c % PAGE_CELLS == 0 && v.descs[c / PAGE_CELLS].IsLargeHead()
       else v.starts[c] != NoStart
  }

  lemma LeadIsNode(g: Geometry, v: View, from: Generation, w: u64)
    requires Shaped(g, v) && RunsOk(v.descs) && Lead(g, v, from, w).Some?
    ensures Node(v, from, Lead(g, v, from, w).value)
  {
    var q := CellOf(g, w) / PAGE_CELLS;
    if v.descs[q].kind == Large {
      BackIsHead(v.descs, q);
      var p := HeadBack(v.descs, q);
      assert PAGE_CELLS * p / PAGE_CELLS == p && PAGE_CELLS * p % PAGE_CELLS == 0;
    }
  }

  /** The fields of a node lie in the heap. */
  lemma FieldsFit(g: Geometry, v: View, from: Generation, c: nat)
    requires MixedOk(g, v) && Node(v, from, c) && from != Free
    ensures c < |v.cells|
    ensures LayoutAt(g, v, c).ptrStart < LayoutAt(g, v, c).ptrEnd ==> c + LayoutAt(g, v, c).ptrEnd <= |v.cells|
    ensures v.descs[c / PAGE_CELLS].kind == Large ==> v.starts[c] == HeaderStart
  {
    var p := c / PAGE_CELLS;
    if v.descs[p].kind == Large {
      assert LargeOk(g, v, p) && RunAt(v.descs, p, v.descs[p].nSpan) && c == PAGE_CELLS * p;
    } else {
      assert IsObj(v, c) && ObjOk(g, v, c);
    }
  }

  // -- The state of a mark --------------------------------------------------

  function Marked(v: View, from: Generation, marks: seq<bool>): set<nat> {
    set c | 0 <= c < |marks| && marks[c] && Node(v, from, c)
  }

  /** The heads among the marked objects. */
  function MarkedHeads(v: View, from: Generation, marks: seq<bool>): set<nat> {
    set p | 0 <= p < |v.descs| && v.descs[p].IsLargeHead() && v.descs[p].generation == from
            && PAGE_CELLS * p < |marks| && marks[PAGE_CELLS * p]
  }

  /** What is marked is reached, the queue is part of it, and whatever is marked and neither queued
      nor the object `c` in hand has its children marked; of `c`'s, those below offset `upto` are. */
  ghost predicate MarkingBut(g: Geometry, v: View, from: Generation, seeds: set<nat>, marks: seq<bool>,
                             queue: seq<nat>, c: nat, upto: nat)
    requires Shaped(g, v)
  {
    && |marks| == |v.starts|
    && (forall q | q in queue :: q in Marked(v, from, marks))
    && (forall x | x in Marked(v, from, marks) :: Reached(g, v, from, seeds, x))
    && (forall s, t | s in Marked(v, from, marks) && s !in queue && s != c && Points(g, v, from, s, t) ::
          t in Marked(v, from, marks))
    && (forall i: nat, t | i < upto && PointsAt(g, v, from, c, i, t) :: t in Marked(v, from, marks))
  }

  ghost predicate MarkingOk(g: Geometry, v: View, from: Generation, seeds: set<nat>, marks: seq<bool>, queue: seq<nat>)
    requires Shaped(g, v)
  {
    && |marks| == |v.starts|
    && (forall q | q in queue :: q in Marked(v, from, marks))
    && (forall x | x in Marked(v, from, marks) :: Reached(g, v, from, seeds, x))
    && (forall s, t | s in Marked(v, from, marks) && s !in queue && Points(g, v, from, s, t) ::
          t in Marked(v, from, marks))
  }

  /** Offering `w`: what it leads to is marked and queued, unless it was marked before. */
  ghost predicate Visited(g: Geometry, v: View, from: Generation, w: u64, marks: seq<bool>, queue: seq<nat>,
                          marks': seq<bool>, queue': seq<nat>)
    requires Shaped(g, v) && |marks| == |v.starts|
  {
    var lead := Lead(g, v, from, w);
    if lead.Some? && lead.value < |marks| && !marks[lead.value]
    then marks' == marks[lead.value := true] && queue' == queue + [lead.value]
    else marks' == marks && queue' == queue
  }

  /** Marks only grow, and a step that changes the queue marks something. */
  ghost predicate Advanced(v: View, from: Generation, marks: seq<bool>, queue: seq<nat>, marks': seq<bool>,
                           queue': seq<nat>) {
    && Marked(v, from, marks) <= Marked(v, from, marks')
    && ((marks' == marks && queue' == queue) || Unmarked(marks') < Unmarked(marks))
  }

  lemma VisitEffect(g: Geometry, v: View, from: Generation, w: u64, marks: seq<bool>, queue: seq<nat>,
                    marks': seq<bool>, queue': seq<nat>)
    requires MixedOk(g, v) && |marks| == |v.starts| && Visited(g, v, from, w, marks, queue, marks', queue')
    ensures |marks'| == |marks| && Advanced(v, from, marks, queue, marks', queue')
    ensures Lead(g, v, from, w).Some? ==> Lead(g, v, from, w).value in Marked(v, from, marks')
    ensures forall c | c in Marked(v, from, marks') && c !in Marked(v, from, marks) ::
              c in queue' && Lead(g, v, from, w) == Some(c)
    ensures forall q | q in queue' :: q in queue || (Lead(g, v, from, w) == Some(q) && q in Marked(v, from, marks'))
    ensures forall q | q in queue :: q in queue'
  {
    var lead := Lead(g, v, from, w);
    if lead.Some? {
      LeadIsNode(g, v, from, w);
      if !marks[lead.value] {
        assert lead.value in Unmarked(marks) && lead.value !in Unmarked(marks');
      }
    }
  }

  /** The next field of the object in hand has been offered. */
  lemma FieldVisited(g: Geometry, v: View, from: Generation, seeds: set<nat>, marks: seq<bool>, queue: seq<nat>,
                     marks': seq<bool>, queue': seq<nat>, c: nat, i: nat)
    requires Shaped(g, v) && MixedOk(g, v) && MarkingBut(g, v, from, seeds, marks, queue, c, i) && c + i < |v.cells|
    requires IsPtrOff(g, v, c, i)
    requires Visited(g, v, from, v.cells[c + i], marks, queue, marks', queue') && Reached(g, v, from, seeds, c)
    ensures MarkingBut(g, v, from, seeds, marks', queue', c, i + 1)
  {
    hide Lead, Marked, Reached, Points, MixedOk, Visited, Unmarked;
    VisitEffect(g, v, from, v.cells[c + i], marks, queue, marks', queue');
    forall x | x in Marked(v, from, marks') ensures Reached(g, v, from, seeds, x) {
      if x !in Marked(v, from, marks) {
        APointer(g, v, from, c, i, x);
        ReachedNext(g, v, from, seeds, c, x);
      }
    }
  }

  lemma APointer(g: Geometry, v: View, from: Generation, s: nat, i: nat, t: nat)
    requires Shaped(g, v) && PointsAt(g, v, from, s, i, t)
    ensures Points(g, v, from, s, t)
  {
  }

  /** A word from outside has been offered. */
  lemma WordVisited(g: Geometry, v: View, from: Generation, seeds: set<nat>, w: u64, marks: seq<bool>, queue: seq<nat>,
                    marks': seq<bool>, queue': seq<nat>)
    requires MixedOk(g, v) && MarkingOk(g, v, from, seeds, marks, queue)
    requires Visited(g, v, from, w, marks, queue, marks', queue')
    requires Lead(g, v, from, w).Some? ==> Lead(g, v, from, w).value in seeds
    ensures MarkingOk(g, v, from, seeds, marks', queue')
  {
    VisitEffect(g, v, from, w, marks, queue, marks', queue');
    hide Lead, Marked, Reached, Points;
    forall x | x in Marked(v, from, marks') ensures Reached(g, v, from, seeds, x) {
      if x !in Marked(v, from, marks) { ReachedSeed(g, v, from, seeds, x); }
    }
  }

  lemma TakenOff(g: Geometry, v: View, from: Generation, seeds: set<nat>, marks: seq<bool>, queue: seq<nat>, lo: nat)
    requires Shaped(g, v) && MarkingOk(g, v, from, seeds, marks, queue) && queue != []
    requires queue[|queue| - 1] < |v.starts| ==> lo <= LayoutAt(g, v, queue[|queue| - 1]).ptrStart
    ensures MarkingBut(g, v, from, seeds, marks, queue[..|queue| - 1], queue[|queue| - 1], lo)
  {
    var n := |queue| - 1;
    assert queue == queue[..n] + [queue[n]];
    assert queue[n] in queue;
  }

  lemma HandedBack(g: Geometry, v: View, from: Generation, seeds: set<nat>, marks: seq<bool>, queue: seq<nat>, c: nat,
                   hi: nat)
    requires Shaped(g, v) && c < |v.starts| && LayoutAt(g, v, c).ptrEnd <= hi
    requires MarkingBut(g, v, from, seeds, marks, queue, c, hi)
    ensures MarkingOk(g, v, from, seeds, marks, queue)
  {
    forall t | Points(g, v, from, c, t) ensures t in Marked(v, from, marks) {
      var i: nat :| PointsAt(g, v, from, c, i, t);
    }
  }

  /** When the queue is empty and the seeds are marked, exactly what they reach is marked. */
  lemma MarkedIsReached(g: Geometry, v: View, from: Generation, seeds: set<nat>, marks: seq<bool>)
    requires Shaped(g, v) && MarkingOk(g, v, from, seeds, marks, []) && seeds <= Marked(v, from, marks)
    ensures forall c: nat :: c in Marked(v, from, marks) <==> Reached(g, v, from, seeds, c)
  {
    forall c: nat | Reached(g, v, from, seeds, c) ensures c in Marked(v, from, marks) {
      var trail :| IsTrail(g, v, from, seeds, trail) && trail[|trail| - 1] == c;
      ReachedInside(g, v, from, seeds, Marked(v, from, marks), trail);
    }
  }

  // -- Pinning a run ---------------------------------------------------------

  /** Pin slot 0 set on every page of the runs of `heads`. */
  function RunsPinned(descs: seq<PageDesc>, heads: set<nat>): (r: seq<PageDesc>)
    ensures |r| == |descs|
  {
    seq(|descs|, q requires 0 <= q < |descs| =>
      if descs[q].kind == Large && HeadBack(descs, q) in heads then descs[q].SetPin(0) else descs[q])
  }

  function HeadCells(heads: set<nat>): set<nat> { set p | p in heads :: PAGE_CELLS * p }

  lemma PinnedSame(descs: seq<PageDesc>, heads: set<nat>)
    ensures SameRuns(descs, RunsPinned(descs, heads))
  {
  }

  /** Pinning the pages of one more run. */
  method PinRun(h: PageHeap, head: nat, ghost descs: seq<PageDesc>, ghost heads: set<nat>)
    requires h.Valid() && RunsOk(descs) && h.descs == RunsPinned(descs, heads) && head !in heads
    requires head < |descs| && descs[head].IsLargeHead()
    modifies h`descs
    ensures h.Valid() && h.descs == RunsPinned(descs, heads + {head})
  {
    hide Starts, GeoOk, WellPaired, RunsOk, HeadBack;
    var n := h.descs[head].nSpan;
    ghost var was := h.descs;
    RunBounds(descs, head);
    for i := 0 to n
      invariant h.Valid() && |h.descs| == |was|
      invariant forall q | 0 <= q < |was| :: h.descs[q] == if head <= q < head + i then was[q].SetPin(0) else was[q]
    {
      h.descs := h.descs[head + i := h.descs[head + i].SetPin(0)];
    }
    forall q | 0 <= q < |descs| ensures h.descs[q] == RunsPinned(descs, heads + {head})[q] {
      if descs[q].kind == Large { InRun(descs, head, q); }
    }
    assert h.descs == RunsPinned(descs, heads + {head});
  }

  lemma RunBounds(descs: seq<PageDesc>, p: nat)
    requires RunsOk(descs) && p < |descs| && descs[p].IsLargeHead()
    ensures p + descs[p].nSpan <= |descs| && HeadBack(descs, p) == p && descs[p].generation != Free
    ensures forall q | p <= q < p + descs[p].nSpan ::
              descs[q].kind == Large && descs[q].generation == descs[p].generation
  {
    assert RunAt(descs, p, descs[p].nSpan);
  }

  lemma HeadIsBack(descs: seq<PageDesc>, now: seq<PageDesc>, page: nat, head: nat)
    requires SameRuns(descs, now) && RunsOk(descs) && RunsOk(now) && HeadOf(now, head, page)
    ensures head < |descs| && descs[head].IsLargeHead() && HeadBack(descs, page) == head
    ensures descs[head].generation == descs[page].generation
  {
    assert RunAt(now, head, now[head].nSpan);
    BackInside(now, head, now[head].nSpan, page);
    SameBack(descs, now, page);
  }

  // -- The mark -------------------------------------------------------------

  /** The heap while a mark runs: as `v`, but for the marks, the pins of the marked runs and the
      record of their heads. */
  ghost predicate MarkState(h: PageHeap, v: View, from: Generation, pins: set<nat>)
    reads h, h.cells, h.startTable.bits, h.markTable.bits
  {
    && h.Valid() && h.V().cells == v.cells && h.V().starts == v.starts
    && h.descs == RunsPinned(v.descs, MarkedHeads(v, from, h.markTable.Map()))
    && h.pinnedCells == pins + HeadCells(MarkedHeads(v, from, h.markTable.Map()))
  }

  /** What a mark may run on. */
  ghost predicate Markable(g: Geometry, v: View, from: Generation) {
    GeoOk(g) && MixedOk(g, v) && KindsOk(v.descs) && ConsPagesOk(v) && from != Free
  }

  lemma SmallMarked(v: View, from: Generation, marks: seq<bool>, c: nat)
    requires c < |marks| && c / PAGE_CELLS < |v.descs| && v.descs[c / PAGE_CELLS].kind != Large
    ensures MarkedHeads(v, from, marks[c := true]) == MarkedHeads(v, from, marks)
  {
    forall p: nat | p < |v.descs| && PAGE_CELLS * p == c ensures p == c / PAGE_CELLS {}
  }

  lemma HeadNowMarked(v: View, from: Generation, marks: seq<bool>, p: nat)
    requires p < |v.descs| && v.descs[p].IsLargeHead() && v.descs[p].generation == from && PAGE_CELLS * p < |marks|
    ensures MarkedHeads(v, from, marks[PAGE_CELLS * p := true]) == MarkedHeads(v, from, marks) + {p}
    ensures p in MarkedHeads(v, from, marks) <==> marks[PAGE_CELLS * p]
    ensures HeadCells(MarkedHeads(v, from, marks) + {p}) == HeadCells(MarkedHeads(v, from, marks)) + {PAGE_CELLS * p}
  {
    forall q: nat | PAGE_CELLS * q == PAGE_CELLS * p ensures q == p {}
  }

  lemma SamePage(v: View, heads: set<nat>, p: nat)
    requires p < |v.descs|
    ensures var d := RunsPinned(v.descs, heads)[p];
      && d.generation == v.descs[p].generation && d.kind == v.descs[p].kind && d.nSpan == v.descs[p].nSpan
  {
  }

  /** `mark_visit_slot`. */
  method VisitSlot(h: PageHeap, w: u64, from: Generation, queue: seq<nat>, ghost v: View, ghost pins: set<nat>)
    returns (queue': seq<nat>)
    requires Markable(h.Geo(), v, from) && MarkState(h, v, from, pins) && |h.markTable.Map()| == |v.starts|
    modifies h`descs, h`pinnedCells, h.markTable.bits
    ensures MarkState(h, v, from, pins) && |h.markTable.Map()| == |v.starts|
    ensures Visited(h.Geo(), v, from, w, old(h.markTable.Map()), queue, h.markTable.Map(), queue')
  {
    hide Starts, GeoOk, Marks, MixedOk, RunsPinned, HeadBack, MarkedHeads, HeadCells, ConsPagesOk, WellPaired, RunsOk;
    ghost var g, marks := h.Geo(), h.markTable.Map();
    queue' := queue;
    var kind := h.layout.classify(w);
    if !kind.IsPointer() { return; }
    var page := h.PageOf(kind.addr);
    if page.None? { return; }
    SamePage(v, MarkedHeads(v, from, marks), page.value);
    if h.descs[page.value].generation != from { return; }
    if h.descs[page.value].kind == Large {
      queue' := VisitRun(h, page.value, from, queue, v, pins);
      return;
    }
    if h.descs[page.value].kind != Cons && h.descs[page.value].kind != Boxed { return; }
    var c := (kind.addr - h.base) / 8;
    var isStart := h.startTable.IsStart(c);
    if !isStart { return; }
    var isCons := h.startTable.IsConsStart(c);
    if kind.PointerCons? != isCons { return; }
    SmallMarked(v, from, marks, c);
    var seen := h.markTable.MarkCell(c);
    if seen {
      assert marks[c := true] == marks;
      return;
    }
    queue' := queue + [c];
  }

  /** ... its branch for a page of a run: on the first visit the run is pinned whole, its head
      recorded as pinned and queued. */
  method VisitRun(h: PageHeap, page: nat, from: Generation, queue: seq<nat>, ghost v: View, ghost pins: set<nat>)
    returns (queue': seq<nat>)
    requires MixedOk(h.Geo(), v) && MarkState(h, v, from, pins) && |h.markTable.Map()| == |v.starts|
    requires page < |v.descs| && v.descs[page].kind == Large && v.descs[page].generation == from
    modifies h`descs, h`pinnedCells, h.markTable.bits
    ensures MarkState(h, v, from, pins) && |h.markTable.Map()| == |v.starts|
    ensures var head, marks := PAGE_CELLS * HeadBack(v.descs, page), old(h.markTable.Map());
      && head < |marks|
      && if marks[head] then h.markTable.Map() == marks && queue' == queue
         else h.markTable.Map() == marks[head := true] && queue' == queue + [head]
  {
    hide Starts, GeoOk, Marks, RunsPinned, HeadBack, MarkedHeads, HeadCells, WellPaired, RunsOk;
    ghost var marks := h.markTable.Map();
    ghost var heads := MarkedHeads(v, from, marks);
    PinnedSame(v.descs, heads);
    SameRunsOk(v.descs, h.descs);
    SamePage(v, heads, page);
    var head := FindHead(h, page);
    HeadIsBack(v.descs, h.descs, page, head);
    HeadNowMarked(v, from, marks, head);
    queue' := queue;
    var seen := h.markTable.MarkCell(PAGE_CELLS * head);
    if seen {
      assert marks[PAGE_CELLS * head := true] == marks;
      return;
    }
    PinRun(h, head, v.descs, heads);
    h.pinnedCells := h.pinnedCells + {PAGE_CELLS * head};
    queue' := queue + [PAGE_CELLS * head];
  }

  /** `mark_scan_object`: every field of the object is offered, over all the pages of a run. */
  method ScanNode(h: PageHeap, from: Generation, queue: seq<nat>, ghost seeds: set<nat>, ghost v: View,
                  ghost pins: set<nat>)
    returns (queue': seq<nat>)
    requires Markable(h.Geo(), v, from) && MarkState(h, v, from, pins)
    requires MarkingOk(h.Geo(), v, from, seeds, h.markTable.Map(), queue) && queue != []
    modifies h`descs, h`pinnedCells, h.markTable.bits
    ensures MarkState(h, v, from, pins) && MarkingOk(h.Geo(), v, from, seeds, h.markTable.Map(), queue')
    ensures Marked(v, from, old(h.markTable.Map())) <= Marked(v, from, h.markTable.Map())
    ensures (queue' == queue[..|queue| - 1] && h.markTable.Map() == old(h.markTable.Map()))
            || Unmarked(h.markTable.Map()) < Unmarked(old(h.markTable.Map()))
  {
    hide Starts, GeoOk, Marks, MixedOk, RunsPinned, MarkedHeads, HeadCells, ConsPagesOk, KindsOk, WellPaired,
      MarkingOk, MarkingBut, Marked, Reached, Visited, Unmarked, Node;
    ghost var g, marks := h.Geo(), h.markTable.Map();
    var c := queue[|queue| - 1];
    QueuedNode(g, v, from, seeds, marks, queue);
    SamePage(v, MarkedHeads(v, from, marks), c / PAGE_CELLS);
    queue' := queue[..|queue| - 1];
    var isCons := false;
    if h.descs[c / PAGE_CELLS].kind == Cons {
      isCons := true;
    } else if h.descs[c / PAGE_CELLS].kind == Boxed {
      isCons := h.startTable.IsConsStart(c);
    }
    var layout := if isCons then ObjectLayout(2, 0, 2) else h.layout.headerLayout(h.cells[c]);
    assert layout == LayoutAt(g, v, c);
    TakenOff(g, v, from, seeds, marks, queue, layout.ptrStart);
    ghost var queue0 := queue';
    Advance(v, from, marks, queue0);
    var i := layout.ptrStart;
    while i < layout.ptrEnd
      invariant layout.ptrStart <= i && (i <= layout.ptrEnd || i == layout.ptrStart)
      invariant MarkState(h, v, from, pins) && MarkingBut(g, v, from, seeds, h.markTable.Map(), queue', c, i)
      invariant Advanced(v, from, marks, queue0, h.markTable.Map(), queue')
    {
      ghost var marks1, queue1 := h.markTable.Map(), queue';
      MarkingSize(g, v, from, seeds, marks1, queue1, c, i);
      queue' := VisitSlot(h, h.cells[c + i], from, queue', v, pins);
      FieldVisited(g, v, from, seeds, marks1, queue1, h.markTable.Map(), queue', c, i);
      AdvancedOn(g, v, from, v.cells[c + i], marks, queue0, marks1, queue1, h.markTable.Map(), queue');
      i := i + 1;
    }
    HandedBack(g, v, from, seeds, h.markTable.Map(), queue', c, i);
  }

  /** What is known of the object at the end of the queue. */
  lemma QueuedNode(g: Geometry, v: View, from: Generation, seeds: set<nat>, marks: seq<bool>, queue: seq<nat>)
    requires Markable(g, v, from) && MarkingOk(g, v, from, seeds, marks, queue) && queue != []
    ensures var c := queue[|queue| - 1];
      && c < |v.starts| && c < |v.cells| && c / PAGE_CELLS < |v.descs| && Reached(g, v, from, seeds, c)
      && (LayoutAt(g, v, c).ptrStart < LayoutAt(g, v, c).ptrEnd ==> c + LayoutAt(g, v, c).ptrEnd <= |v.cells|)
      && (v.descs[c / PAGE_CELLS].kind == Large ==> v.starts[c] == HeaderStart)
      && (v.descs[c / PAGE_CELLS].kind == Cons ==> v.starts[c] == ConsStart)
      && v.descs[c / PAGE_CELLS].kind != Unassigned
  {
    hide Reached;
    var c := queue[|queue| - 1];
    assert c in queue;
    FieldsFit(g, v, from, c);
  }

  lemma MarkingSize(g: Geometry, v: View, from: Generation, seeds: set<nat>, marks: seq<bool>, queue: seq<nat>, c: nat,
                    i: nat)
    requires Shaped(g, v) && MarkingBut(g, v, from, seeds, marks, queue, c, i)
    ensures |marks| == |v.starts|
  {
  }

  lemma Advance(v: View, from: Generation, marks: seq<bool>, queue: seq<nat>)
    ensures Advanced(v, from, marks, queue, marks, queue)
  {
  }

  lemma AdvancedOn(g: Geometry, v: View, from: Generation, w: u64, marks0: seq<bool>, queue0: seq<nat>,
                   marks: seq<bool>, queue: seq<nat>, marks': seq<bool>, queue': seq<nat>)
    requires MixedOk(g, v) && |marks| == |v.starts| && Advanced(v, from, marks0, queue0, marks, queue)
    requires Visited(g, v, from, w, marks, queue, marks', queue')
    ensures Advanced(v, from, marks0, queue0, marks', queue')
  {
    VisitEffect(g, v, from, w, marks, queue, marks', queue');
  }

  /** `mark_drain`. */
  method DrainAll(h: PageHeap, from: Generation, queue: seq<nat>, ghost seeds: set<nat>, ghost v: View,
                  ghost pins: set<nat>)
    requires Markable(h.Geo(), v, from) && MarkState(h, v, from, pins)
    requires MarkingOk(h.Geo(), v, from, seeds, h.markTable.Map(), queue)
    modifies h`descs, h`pinnedCells, h.markTable.bits
    ensures MarkState(h, v, from, pins) && MarkingOk(h.Geo(), v, from, seeds, h.markTable.Map(), [])
    ensures Marked(v, from, old(h.markTable.Map())) <= Marked(v, from, h.markTable.Map())
  {
    hide Starts, GeoOk, Marks, MixedOk, MarkState, MarkingOk, Marked, Unmarked, Markable;
    var q := queue;
    MixedIn(h.Geo(), v, from);
    while q != []
      invariant MarkState(h, v, from, pins) && MarkingOk(h.Geo(), v, from, seeds, h.markTable.Map(), q)
      invariant Marked(v, from, old(h.markTable.Map())) <= Marked(v, from, h.markTable.Map())
      decreases Unmarked(h.markTable.Map()), |q|
    {
      q := ScanNode(h, from, q, seeds, v, pins);
    }
  }

  /** The internal mark: cleared marks, every word offered, the queue drained. Exactly what the words
      reach is marked, through fields of small and of Large objects alike, and exactly the runs
      reached are pinned whole and recorded at their heads. */
  method MarkMixed(h: PageHeap, words: seq<u64>, from: Generation)
    requires Markable(h.Geo(), h.V(), from) && h.Valid()
    modifies h`descs, h`pinnedCells, h.markTable.bits
    ensures MarkState(h, old(h.V()), from, old(h.pinnedCells)) && |h.markTable.Map()| == |old(h.V()).starts|
    ensures forall c: nat :: c in Marked(old(h.V()), from, h.markTable.Map()) <==>
              Reached(h.Geo(), old(h.V()), from, Leads(h.Geo(), old(h.V()), from, words), c)
  {
    hide Starts, GeoOk, Marks, MarkState, MarkingOk, Marked, Markable, Reached, Leads, Lead;
    ghost var g, v, pins := h.Geo(), h.V(), h.pinnedCells;
    ghost var seeds := Leads(g, v, from, words);
    ClearMarkBitsInGen(h, from);
    NothingMarked(h, v, from, pins, seeds);
    var queue: seq<nat> := [];
    for i := 0 to |words|
      invariant MarkState(h, v, from, pins) && MarkingOk(g, v, from, seeds, h.markTable.Map(), queue)
      invariant forall j | 0 <= j < i :: LeadMarked(g, v, from, words[j], h.markTable.Map())
    {
      ghost var marks, queue0 := h.markTable.Map(), queue;
      MarkTableSize(g, v, from, seeds, marks, queue);
      MixedIn(g, v, from);
      queue := VisitSlot(h, words[i], from, queue, v, pins);
      IsLead(g, v, from, words, i);
      WordVisited(g, v, from, seeds, words[i], marks, queue0, h.markTable.Map(), queue);
      VisitEffect(g, v, from, words[i], marks, queue0, h.markTable.Map(), queue);
    }
    DrainAll(h, from, queue, seeds, v, pins);
    MarkTableSize(g, v, from, seeds, h.markTable.Map(), []);
    LeadsMarked(g, v, from, words, h.markTable.Map());
    MarkedIsReached(g, v, from, seeds, h.markTable.Map());
  }

  ghost predicate LeadMarked(g: Geometry, v: View, from: Generation, w: u64, marks: seq<bool>)
    requires Shaped(g, v)
  {
    Lead(g, v, from, w).Some? ==> Lead(g, v, from, w).value in Marked(v, from, marks)
  }

  lemma MixedIn(g: Geometry, v: View, from: Generation)
    requires Markable(g, v, from)
    ensures MixedOk(g, v) && Shaped(g, v)
  {
  }

  lemma MarkTableSize(g: Geometry, v: View, from: Generation, seeds: set<nat>, marks: seq<bool>, queue: seq<nat>)
    requires Shaped(g, v) && MarkingOk(g, v, from, seeds, marks, queue)
    ensures |marks| == |v.starts|
  {
  }

  lemma NothingMarked(h: PageHeap, v: View, from: Generation, pins: set<nat>, seeds: set<nat>)
    requires h.Valid() && Markable(h.Geo(), v, from) && h.V() == v && h.pinnedCells == pins
    requires NoMarksIn(v, from, h.markTable.Map())
    requires |h.markTable.Map()| == |v.starts|
    ensures MarkState(h, v, from, pins) && MarkingOk(h.Geo(), v, from, seeds, h.markTable.Map(), [])
  {
    hide Starts, GeoOk, Marks, MixedOk, Reached, Points;
    assert Marked(v, from, h.markTable.Map()) == {};
    forall p: nat | p < |v.descs| && PAGE_CELLS * p < |h.markTable.Map()| && v.descs[p].generation == from
      ensures !h.markTable.Map()[PAGE_CELLS * p] {
      assert (PAGE_CELLS * p) / PAGE_CELLS == p;
    }
    assert MarkedHeads(v, from, h.markTable.Map()) == {};
    assert RunsPinned(v.descs, {}) == v.descs && HeadCells({}) == {};
  }

  lemma IsLead(g: Geometry, v: View, from: Generation, words: seq<u64>, i: nat)
    requires Shaped(g, v) && i < |words|
    ensures Lead(g, v, from, words[i]).Some? ==> Lead(g, v, from, words[i]).value in Leads(g, v, from, words)
  {
  }

  lemma LeadsMarked(g: Geometry, v: View, from: Generation, words: seq<u64>, marks: seq<bool>)
    requires Shaped(g, v) && forall j | 0 <= j < |words| :: LeadMarked(g, v, from, words[j], marks)
    ensures Leads(g, v, from, words) <= Marked(v, from, marks)
  {
    hide Lead, Marked;
    forall i | 0 <= i < |words| && Lead(g, v, from, words[i]).Some?
      ensures Lead(g, v, from, words[i]).value in Marked(v, from, marks) {
      assert LeadMarked(g, v, from, words[i], marks);
    }
  }
}
