/** `evacuate_with_roots`: a whole evacuation pass. */
module Evacuation {
  import opened Bits
  import opened Options
  import opened Bitmaps
  import opened Layouts
  import opened Pages
  import opened Objects
  import opened PageHeaps
  import opened Alloc
  import opened Marking
  import opened Moves
  import opened Rewrite
  import opened Cards
  import opened Demands
  import opened Copying
  import opened Reclaiming
  import opened EvacMarking
  import opened Graphs
  import opened Placement
  import opened Passes
  import opened PassGraph
  import opened PassSteps
  import opened PassStates
  import opened BackPointers
  import opened Following
  import opened Misreads
  import opened PassChunks
  import opened Plans
  import opened PassResults

  // -- Before the chunk loop ------------------------------------------------

  /** The pinned cells with their kinds, before any start bit is cleared. */
  method PinSnapshot(h: PageHeap) returns (pinned: seq<(nat, bool)>)
    requires h.Valid() && PinsOk(h.V(), h.pinnedCells)
    ensures SnapshotOf(h.V(), h.pinnedCells, pinned)
  {
    hide Starts, GeoOk, Bit;
    pinned := [];
    var rest := h.pinnedCells;
    ghost var done: set<nat> := {};
    while rest != {}
      invariant done + rest == h.pinnedCells && SnapshotOf(h.V(), done, pinned)
      decreases rest
    {
      var c :| c in rest;
      assert IsObj(h.V(), c);
      var isCons := h.startTable.IsConsStart(c);
      ghost var was := pinned;
      pinned := pinned + [(c, isCons)];
      rest := rest - {c};
      assert pinned[|was|] == (c, isCons);
      forall s | s in done + {c} ensures exists j :: 0 <= j < |pinned| && pinned[j].0 == s {
        if s in done {
          var j :| 0 <= j < |was| && was[j].0 == s;
          assert pinned[j].0 == s;
        }
      }
      done := done + {c};
    }
    assert done == h.pinnedCells;
  }

  /** The regions of the source generation start afresh. */
  method ResetRegions(h: PageHeap, from: Generation, ghost rest: set<nat>)
    requires h.Inv() && HasRegion(from, Cons)
    requires forall p | p in rest :: p < |h.descs| && h.descs[p].generation == from
    modifies h`regions
    ensures h.Inv() && Sealed(h.descs, h.regions, rest)
    ensures h.regions == Afresh(old(h.regions), from)
  {
    hide Starts, GeoOk, MemoryOk, PagesOk;
    ghost var r0 := h.regions;
    h.regions := h.regions[RegionIndex(from, Cons) := EMPTY_REGION][RegionIndex(from, Boxed) := EMPTY_REGION];
    forall i | 0 <= i < 6 && h.regions[i].currentPage.Some?
      ensures RegionOk(h.descs, h.regions[i], RegionGen(i), RegionKind(i)) && h.regions[i].currentPage.value !in rest
    {
      assert h.regions[i] == r0[i];
      OpenRegion(h.descs, r0, i);
      OtherRegion(from, i);
    }
  }

  lemma OtherRegion(from: Generation, i: nat)
    requires HasRegion(from, Cons) && i < 6 && i != RegionIndex(from, Cons) && i != RegionIndex(from, Boxed)
    ensures RegionGen(i) != from
  {
  }

  // -- How far the chunk loop has come --------------------------------------

  /** The pages before the `i`th that were released. */
  function Gone(descs: seq<PageDesc>, pages: seq<nat>, i: nat): set<nat>
    requires i <= |pages|
  {
    Members(Unpinned(descs, pages[..i]))
  }

  /** The pages closed to allocation: those still to come and those flipped. */
  function Shut(descs: seq<PageDesc>, pages: seq<nat>, i: nat): set<nat>
    requires i <= |pages|
  {
    Members(pages) - Gone(descs, pages, i)
  }

  lemma TailAll(descs: seq<PageDesc>, from: Generation)
    ensures forall p :: p in Tail(PagesIn(descs, from), 0) <==> 0 <= p < |descs| && descs[p].generation == from
    ensures Tail(PagesIn(descs, from), |PagesIn(descs, from)|) == {}
    ensures Gone(descs, PagesIn(descs, from), 0) == {}
    ensures Shut(descs, PagesIn(descs, from), 0) == Tail(PagesIn(descs, from), 0)
  {
    var pages := PagesIn(descs, from);
    assert pages[0..] == pages && pages[..0] == [];
  }

  lemma TailNext(pages: seq<nat>, i: nat, n: nat, chunk: seq<nat>)
    requires i + n <= |pages| && forall i, j | 0 <= i < j < |pages| :: pages[i] < pages[j]
    requires chunk == pages[i..i + n]
    ensures Tail(pages, i + n) == Tail(pages, i) - Before(chunk, n)
    ensures forall j | 0 <= j < n :: chunk[j] in Tail(pages, i)
    ensures Before(chunk, n) <= Tail(pages, i)
    ensures forall j, k | 0 <= j < k < n :: chunk[j] != chunk[k]
  {
    var later := pages[i + n..];
    assert chunk[..n] == chunk;
    assert pages[i..] == chunk + later;
    forall j, k | 0 <= j < |chunk| && 0 <= k < |later| ensures chunk[j] < later[k] {
      assert pages[i + j] < pages[i + n + k];
    }
  }

  lemma GoneNext(descs: seq<PageDesc>, pages: seq<nat>, i: nat, n: nat, chunk: seq<nat>)
    requires i + n <= |pages| && chunk == pages[i..i + n]
    ensures Gone(descs, pages, i + n) == Gone(descs, pages, i) + Members(Unpinned(descs, chunk))
    ensures Shut(descs, pages, i + n) == Shut(descs, pages, i) - Members(Unpinned(descs, chunk))
    ensures Members(chunk) == Before(chunk, n)
  {
    hide Unpinned;
    assert pages[..i + n] == pages[..i] + chunk && chunk[..n] == chunk;
  }

  lemma UnpinnedSplit(descs: seq<PageDesc>, pages: seq<nat>, i: nat, n: nat)
    requires i + n <= |pages|
    ensures Unpinned(descs, pages[..i + n]) == Unpinned(descs, pages[..i]) + Unpinned(descs, pages[i..i + n])
  {
    hide Unpinned;
    UnpinnedConcat(descs, pages[..i], pages[i..i + n]);
    assert pages[..i + n] == pages[..i] + pages[i..i + n];
  }

  lemma {:induction false} UnpinnedConcat(descs: seq<PageDesc>, a: seq<nat>, b: seq<nat>)
    ensures Unpinned(descs, a + b) == Unpinned(descs, a) + Unpinned(descs, b)
  {
    if b == [] {
      assert a + b == a;
    } else {
      hide Unpinned;
      var first, last := b[..|b| - 1], [b[|b| - 1]];
      UnpinnedConcat(descs, a, first);
      UnpinnedLast(descs, a + first, last[0]);
      UnpinnedLast(descs, first, last[0]);
      assert a + b == a + first + last by { assert b == first + last; Regrouped(a, first, last); }
      Regrouped(Unpinned(descs, a), Unpinned(descs, first), Unpinned(descs, b)[|Unpinned(descs, first)|..]);
    }
  }

  lemma Regrouped(a: seq<nat>, b: seq<nat>, c: seq<nat>)
    ensures a + (b + c) == a + b + c
  {
  }

  lemma UnpinnedLast(descs: seq<PageDesc>, chunk: seq<nat>, p: nat)
    ensures Unpinned(descs, chunk + [p]) ==
            Unpinned(descs, chunk) + if p < |descs| && descs[p].HasPins() then [] else [p]
  {
    assert (chunk + [p])[..|chunk|] == chunk;
  }

  /** The next chunk: its pages are source pages not yet done. */
  lemma ChunkFacts(vs: View, from: Generation, pages: seq<nat>, i: nat, n: nat, chunk: seq<nat>)
    requires pages == PagesIn(vs.descs, from) && i + n <= |pages| && chunk == pages[i..i + n]
    ensures Tail(pages, i + n) == Tail(pages, i) - Before(chunk, n)
    ensures Members(chunk) == Before(chunk, n) && Before(chunk, n) <= Tail(pages, i)
    ensures (forall j | 0 <= j < n :: chunk[j] in Tail(pages, i))
    ensures (forall j, k | 0 <= j < k < n :: chunk[j] != chunk[k])
    ensures Gone(vs.descs, pages, i + n) == Gone(vs.descs, pages, i) + Members(Unpinned(vs.descs, chunk))
    ensures Shut(vs.descs, pages, i + n) == Shut(vs.descs, pages, i) - Members(Unpinned(vs.descs, chunk))
    ensures forall j | 0 <= j < n :: chunk[j] < |vs.descs| && vs.descs[chunk[j]].generation == from
  {
    hide Tail, Before, Gone, Shut, Unpinned;
    TailNext(pages, i, n, chunk);
    GoneNext(vs.descs, pages, i, n, chunk);
    forall j | 0 <= j < |chunk| ensures chunk[j] < |vs.descs| && vs.descs[chunk[j]].generation == from {
      assert chunk[j] == pages[i + j];
    }
  }

  /** The pinned source pages counted for the budget are those that were so from the start. */
  lemma PendingNow(g: Geometry, vs: View, v: View, phi: map<nat, nat>, live: set<nat>, pins: set<nat>, from: Generation,
                   dest: Generation, rest: set<nat>)
    requires Placed(g, vs, v, phi, live, pins, from, dest, rest) && (forall s | s in pins :: s in live)
    ensures PinnedPages(v.descs, pins, from) == Pending(vs.descs, pins, from, dest, rest)
  {
    hide SameShape, RestKept;
    forall p: nat
      ensures p in PinnedPages(v.descs, pins, from) <==> p in Pending(vs.descs, pins, from, dest, rest)
    {
      if p in PagesOf(pins) {
        var c :| c in pins && c / PAGE_CELLS == p;
        assert InPlace(g, vs, v, pins, from, dest, rest, c, phi[c]);
        ShapeFit(g, vs, v, c, phi[c]);
        if p in rest { RestFrom(vs, v, from, rest, c); }
      }
    }
  }

  lemma ReleasedNow(v: View, pins: set<nat>, chunk: seq<nat>)
    requires PinsOk(v, pins) && forall p | p in chunk :: p < |v.descs|
    ensures Released(v.descs, pins, chunk) == Unpinned(v.descs, chunk)
  {
    PinnedPagesCarry(v, pins);
    ReleasedUnpinned(v.descs, v.descs, pins, chunk);
  }

  /** Where the card scan sees source pages, nothing but conses moves from them. */
  ghost predicate ScanFits(scan: Option<seq<PageDesc>>, v: View, move: set<nat>, from: Generation) {
    scan.Some? ==> forall p | 0 <= p < |v.descs| && v.descs[p].generation == from ::
        Hidden(scan.value, from, p) || ConsesMove(v, move, p)
  }

  lemma SkipsChunk(scan: Option<seq<PageDesc>>, v: View, move: set<nat>, from: Generation, chunk: seq<nat>)
    requires ScanFits(scan, v, move, from)
    requires forall i | 0 <= i < |chunk| :: chunk[i] < |v.descs| && v.descs[chunk[i]].generation == from
    ensures ScanSkips(scan, v, move, from, chunk)
  {
    hide ConsesMove;
  }

  /** The objects of `from` are conses. */
  ghost predicate ConsesOf(v: View, from: Generation) {
    forall s: nat | IsObj(v, s) && GenAt(v, s) == from :: v.starts[s] == ConsStart
  }

  /** The source holds conses only, no page is pinned, and a Free page is left. */
  ghost predicate Roomy(v: View, from: Generation) {
    NoPinBytes(v) && ConsesOf(v, from) && CountGen(v.descs, Free) >= 1
  }

  /** A chunk is no larger than what is Free, and of conses it asks for no more than its own length. */
  lemma ChunkAsks(g: Geometry, vs: View, cardsS: seq<bool>, v: View, cards: seq<bool>, phi: map<nat, nat>,
                  live: set<nat>, pins: set<nat>, from: Generation, dest: Generation, rest: set<nat>, chunk: seq<nat>,
                  remaining: nat)
    requires PassState(g, vs, cardsS, v, cards, phi, live, pins, from, dest, rest) && Roomy(vs, from)
    requires forall i | 0 <= i < |chunk| :: chunk[i] in rest
    requires remaining >= 1 && |chunk| == ChunkSize(v.descs, pins, from, remaining)
    requires CountGen(vs.descs, Free) <= CountGen(v.descs, Free)
    ensures PagesAsked(v, chunk) == |chunk| <= CountGen(v.descs, Free)
  {
    hide HeapOk, GeoOk, Placed, CardedSoFar, TiledSoFar, Emptied, OnlyIntoDest, CountGen, NoPinBytes, PinnedPages;
    PlacedRest(g, vs, v, phi, live, pins, from, dest, rest);
    forall i | 0 <= i < |chunk| ensures ConsesOn(v, chunk[i]) {
      forall s | 0 <= s < |v.starts| && IsObj(v, s) && s / PAGE_CELLS == chunk[i] ensures v.starts[s] == ConsStart {
        assert IsObj(vs, s);
      }
    }
  }

  lemma RoomyFits(v: View, from: Generation, marks: seq<bool>, pins: set<nat>, scan: Option<seq<PageDesc>>)
    requires Roomy(v, from)
    ensures ScanFits(scan, v, LiveSet(v, from, marks) - pins, from)
  {
    hide NoPinBytes, CountGen;
    forall p | 0 <= p < |v.descs| && v.descs[p].generation == from
      ensures ConsesMove(v, LiveSet(v, from, marks) - pins, p) {
      forall s | s in LiveSet(v, from, marks) && s / PAGE_CELLS == p ensures v.starts[s] == ConsStart {}
    }
  }

  lemma {:induction false} UnpinnedAll(v: View, chunk: seq<nat>)
    requires NoPinBytes(v)
    ensures Unpinned(v.descs, chunk) == chunk
  {
    if chunk != [] {
      UnpinnedAll(v, chunk[..|chunk| - 1]);
    }
  }

  /** The plan of the rest, joined to what has been so far. */
  function Joined(plan: Plan, straight: bool): Plan { plan.(straight := straight && plan.straight) }

  /** What one turn means for the plan. */
  lemma TurnPlanned(g: Geometry, vs: View, live: set<nat>, pins: set<nat>, from: Generation, dest: Generation,
                    pages: seq<nat>, i: nat, free: nat, d: Demand, n: nat, chunk: seq<nat>, asked: Demand,
                    straight: bool, plan: Plan)
    requires i < |pages| && n == Cut(free, |Pending(vs.descs, pins, from, dest, Tail(pages, i))|, |pages| - i)
    requires chunk == pages[i..i + n] && asked == PackChunk(g, vs, live - pins, from, chunk, n, d)
    requires plan == Joined(PlanFrom(g, vs, live, pins, from, dest, pages, i, free, d), straight)
    requires PinsOk(vs, pins) && forall j | 0 <= j < |chunk| :: chunk[j] < |vs.descs|
    ensures asked.Pages() > free ==> !plan.affords
    ensures asked.Pages() <= free ==>
              var freed := Unpinned(vs.descs, chunk);
              plan == Joined(PlanFrom(g, vs, live, pins, from, dest, pages, i + n, free - asked.Pages() + |freed|,
                  asked.Next(freed)),
                             straight && NoBack(g, vs, live, pins, Members(chunk), Tail(pages, i + n)))
  {
    hide Cut, PackChunk, Pending, NoBack, PlanFrom, PinsOk, Tail;
    ReleasedNow(vs, pins, chunk);
    PlanNext(g, vs, live, pins, from, dest, pages, i, free, d, n, chunk, asked, Released(vs.descs, pins, chunk));
  }

  lemma PassingFacts(h: PageHeap, vs: View, cardsS: seq<bool>, phi: map<nat, nat>, live: set<nat>, from: Generation,
                     dest: Generation, rest: set<nat>, closed: set<nat>, pinned: seq<(nat, bool)>)
    requires Passing(h, vs, cardsS, phi, live, from, dest, rest, closed, pinned)
    ensures h.Valid() && PinsOk(h.V(), h.pinnedCells) && GeoOk(h.Geo()) && Shaped(h.Geo(), vs) && InRange(h.Geo(), phi)
    ensures PassState(h.Geo(), vs, cardsS, h.V(), h.cards[..], phi, live, h.pinnedCells, from, dest, rest)
    ensures Placed(h.Geo(), vs, h.V(), phi, live, h.pinnedCells, from, dest, rest)
  {
    hide Starts, GeoOk, MemoryOk, PagesOk, RegionsOk, Sealed, PinsOk, SnapshotOf, NoLarge, PassState, Placed,
      FlippedOnly, CardsClean, WellPaired;
    StateHeapOk(h.Geo(), vs, cardsS, h.V(), h.cards[..], phi, live, h.pinnedCells, from, dest, rest);
  }

  lemma UnseenFewer(scan: Option<seq<PageDesc>>, from: Generation, pages: set<nat>, fewer: set<nat>)
    requires AllUnseen(scan, from, pages) && fewer <= pages
    ensures AllUnseen(scan, from, fewer)
  {
  }

  lemma TurnMisread(v: View, move: set<nat>, from: Generation, chunk: seq<nat>, scan: Option<seq<PageDesc>>)
    requires forall j | 0 <= j < |chunk| :: chunk[j] < |v.descs| && v.descs[chunk[j]].generation == from
    requires !ScanSkips(scan, v, move, from, chunk)
    ensures !ScanFits(scan, v, move, from)
  {
    hide ScanFits, ScanSkips;
    if ScanFits(scan, v, move, from) { SkipsChunk(scan, v, move, from, chunk); }
  }

  /** What the chunk loop goes by: the heap, cards and roots at its start, what it is to keep, the
      plan, and which parts of the graph theorem apply. */
  datatype Setting = Setting(vs: View, cards: seq<bool>, roots: seq<u64>, live: set<nat>, plan: Plan, ready: bool,
      hidden: bool)

  /** Where objects are by now, what the next chunk starts packing with, whether all was straight. */
  datatype Progress = Progress(phi: map<nat, nat>, d: Demand, straight: bool)

  /** The pages before the `i`th. */
  function Past(pages: seq<nat>, i: nat): set<nat>
    requires i <= |pages|
  {
    Tail(pages, 0) - Tail(pages, i)
  }

  /** The invariant of the chunk loop with the first `i` source pages done. */
  ghost predicate Midway(h: PageHeap, from: Generation, dest: Generation, pages: seq<nat>, i: nat, roots: seq<u64>,
                         scan: Option<seq<PageDesc>>, pinned: seq<(nat, bool)>, b: Setting, at: Progress)
    requires i <= |pages|
    reads h, h.cells, h.startTable.bits, h.cards
  {
    && Passing(h, b.vs, b.cards, at.phi, b.live, from, dest, Tail(pages, i), Shut(b.vs.descs, pages, i), pinned)
    && DemandSoFar(h.descs, h.V(), h.regions, h.freeList, dest, at.d) && Fresh(at.d)
    && (forall s | s in at.d.at :: s / PAGE_CELLS !in Tail(pages, i))
    && GeoOk(h.Geo()) && Shaped(h.Geo(), b.vs) && InRange(h.Geo(), at.phi) && PinsOk(b.vs, h.pinnedCells)
    && b.plan == Joined(PlanFrom(h.Geo(), b.vs, b.live, h.pinnedCells, from, dest, pages, i, CountGen(h.descs, Free),
          at.d), at.straight)
    && KeptUp(h.Geo(), b.vs, h.V(), at.phi, b.live, h.pinnedCells, from, dest, Tail(pages, i),
              CardRoots(h.Geo(), b.vs, b.cards, scan, from), b.roots, roots, b.ready, b.hidden, at.straight)
    && (b.hidden ==> AllUnseen(scan, from, Tail(pages, i)))
    && PutBy(at.phi, b.plan.demand.at, b.live - h.pinnedCells, Past(pages, i))
    && AsPacked(h.Geo(), b.vs, b.cards, b.live, h.pinnedCells, from, scan, b.plan.demand.at, Past(pages, i), true)
    && (NoPinBytes(b.vs) ==> NoPinBytes(h.V()))
    && (Roomy(b.vs, from) ==> CountGen(b.vs.descs, Free) <= CountGen(h.descs, Free))
  }

  /** The graph theorem applies. */
  ghost predicate Readied(h: PageHeap, scan: Option<seq<PageDesc>>, from: Generation, b: Setting)
    reads h
  {
    && Shaped(h.Geo(), b.vs) && GraphReady(h.Geo(), b.vs, b.cards, scan, b.roots, h.pinnedCells, from)
    && ClosedHeap(h.Geo(), b.vs, b.live)
  }

  /** What the next turn may rely on. */
  lemma TurnStart(h: PageHeap, from: Generation, dest: Generation, pages: seq<nat>, idx: nat, size: nat,
                  chunk: seq<nat>, roots: seq<u64>, scan: Option<seq<PageDesc>>, pinned: seq<(nat, bool)>, b: Setting,
                  at: Progress)
    requires idx < |pages| && Midway(h, from, dest, pages, idx, roots, scan, pinned, b, at)
    requires pages == PagesIn(b.vs.descs, from) && size == ChunkSize(h.descs, h.pinnedCells, from, |pages| - idx)
    requires chunk == pages[idx..idx + size] && forall s | s in h.pinnedCells :: s in b.live
    ensures Passing(h, b.vs, b.cards, at.phi, b.live, from, dest, Tail(pages, idx), Shut(b.vs.descs, pages, idx),
        pinned)
    ensures DemandSoFar(h.descs, h.V(), h.regions, h.freeList, dest, at.d) && Fresh(at.d)
    ensures forall s | s in at.d.at :: s / PAGE_CELLS !in Tail(pages, idx)
    ensures GeoOk(h.Geo()) && Shaped(h.Geo(), b.vs) && InRange(h.Geo(), at.phi)
    ensures KeptUp(h.Geo(), b.vs, h.V(), at.phi, b.live, h.pinnedCells, from, dest, Tail(pages, idx),
                   CardRoots(h.Geo(), b.vs, b.cards, scan, from), b.roots, roots, b.ready, b.hidden, at.straight)
    ensures b.hidden ==> AllUnseen(scan, from, Tail(pages, idx))
    ensures (forall i | 0 <= i < |chunk| :: chunk[i] in Tail(pages, idx))
    ensures forall i, j | 0 <= i < j < |chunk| :: chunk[i] != chunk[j]
    ensures |chunk| == size
    ensures Roomy(b.vs, from) ==> PagesAsked(h.V(), chunk) == size <= CountGen(h.descs, Free)
  {
    hide Starts, GeoOk, Lawful, HeapOk, PassState, WellPaired, Before, NoPinBytes, Tail, PagesIn, Gone, Shut, KeptUp,
      CountGen, PagesAsked, ConsesOf, PlanFrom, DemandSoFar, AsPacked, PutBy, AllUnseen, Cut, Unpinned, Members,
      Passing, Placed, Roomy, PinsOk;
    PassingFacts(h, b.vs, b.cards, at.phi, b.live, from, dest, Tail(pages, idx), Shut(b.vs.descs, pages, idx), pinned);
    ChunkFacts(b.vs, from, pages, idx, size, chunk);
    if Roomy(b.vs, from) {
      ChunkAsks(h.Geo(), b.vs, b.cards, h.V(), h.cards[..], at.phi, b.live, h.pinnedCells, from, dest, Tail(pages,
        idx), chunk, |pages| - idx);
    }
  }

  /** How the plan stands, before the next turn asks for `asked`. */
  lemma TurnPlan(h: PageHeap, from: Generation, dest: Generation, pages: seq<nat>, idx: nat, size: nat,
                 chunk: seq<nat>, roots: seq<u64>, scan: Option<seq<PageDesc>>, pinned: seq<(nat, bool)>, b: Setting,
                 at: Progress, asked: Demand)
    requires idx < |pages| && Midway(h, from, dest, pages, idx, roots, scan, pinned, b, at)
    requires pages == PagesIn(b.vs.descs, from) && size == ChunkSize(h.descs, h.pinnedCells, from, |pages| - idx)
    requires chunk == pages[idx..idx + size] && forall s | s in h.pinnedCells :: s in b.live
    requires asked == PackChunk(h.Geo(), b.vs, b.live - h.pinnedCells, from, chunk, size, at.d)
    ensures PlanTurned(h.Geo(), b, h.pinnedCells, from, dest, pages, idx, size, chunk, CountGen(h.descs, Free), asked,
        at.straight)
  {
    hide Starts, GeoOk, Lawful, HeapOk, PassState, WellPaired, Before, NoPinBytes, Tail, PagesIn, Gone, Shut, KeptUp,
      PinsOk, CountGen, PlanFrom, DemandSoFar, AsPacked, PutBy, AllUnseen, Cut, Unpinned, Members, Passing, Placed,
      Roomy, NoBack, PackChunk, PinnedPages, Pending;
    var g, pins, rest := h.Geo(), h.pinnedCells, Tail(pages, idx);
    PassingFacts(h, b.vs, b.cards, at.phi, b.live, from, dest, rest, Shut(b.vs.descs, pages, idx), pinned);
    PendingNow(g, b.vs, h.V(), at.phi, b.live, pins, from, dest, rest);
    ChunkFacts(b.vs, from, pages, idx, size, chunk);
    TurnPlanned(g, b.vs, b.live, pins, from, dest, pages, idx, CountGen(h.descs, Free), at.d, size, chunk, asked,
      at.straight, b.plan);
  }

  ghost predicate PlanTurned(g: Geometry, b: Setting, pins: set<nat>, from: Generation, dest: Generation,
                             pages: seq<nat>, i: nat, n: nat, chunk: seq<nat>, free: nat, asked: Demand, straight: bool)
    requires i + n <= |pages|
  {
    && (asked.Pages() > free ==> !b.plan.affords)
    && (asked.Pages() <= free ==>
          var freed := Unpinned(b.vs.descs, chunk);
          b.plan == Joined(PlanFrom(g, b.vs, b.live, pins, from, dest, pages, i + n, free - asked.Pages() + |freed|,
              asked.Next(freed)),
                           straight && NoBack(g, b.vs, b.live, pins, Members(chunk), Tail(pages, i + n))))
  }

  /** The turn done: the invariant again. */
  lemma TurnEnd(h: PageHeap, from: Generation, dest: Generation, pages: seq<nat>, idx: nat, size: nat, chunk: seq<nat>,
                roots: seq<u64>, scan: Option<seq<PageDesc>>, pinned: seq<(nat, bool)>, b: Setting, at: Progress,
                asked: Demand, phi: map<nat, nat>, free: nat)
    requires idx + size <= |pages| && pages == PagesIn(b.vs.descs, from) && chunk == pages[idx..idx + size]
    requires Passing(h, b.vs, b.cards, phi, b.live, from, dest, Tail(pages, idx) - Before(chunk, size),
                     Shut(b.vs.descs, pages, idx) - Members(Unpinned(b.vs.descs, chunk)), pinned)
    requires DemandSoFar(h.descs, h.V(), h.regions, h.freeList, dest, asked.Next(Unpinned(b.vs.descs, chunk)))
    requires asked == PackChunk(h.Geo(), b.vs, b.live - h.pinnedCells, from, chunk, size, at.d)
    requires forall s | s in at.d.at :: s / PAGE_CELLS !in Tail(pages, idx)
    requires GeoOk(h.Geo()) && Shaped(h.Geo(), b.vs) && InRange(h.Geo(), phi) && PinsOk(b.vs, h.pinnedCells)
    requires Shaped(h.Geo(), h.V())
    requires KeptUp(h.Geo(), b.vs, h.V(), phi, b.live, h.pinnedCells, from, dest,
                    Tail(pages, idx) - Before(chunk, size), CardRoots(h.Geo(), b.vs, b.cards, scan, from), b.roots,
                    roots, b.ready, b.hidden,
                    at.straight && NoBack(h.Geo(), b.vs, b.live, h.pinnedCells, Before(chunk, size),
                                          Tail(pages, idx) - Before(chunk, size)))
    requires b.hidden ==> AllUnseen(scan, from, Tail(pages, idx))
    requires PutBy(at.phi, b.plan.demand.at, b.live - h.pinnedCells, Past(pages, idx))
    requires PutBy(phi, asked.at, b.live - h.pinnedCells, Before(chunk, size)) && Unmoved(at.phi, phi, Tail(pages, idx))
    requires AsPacked(h.Geo(), b.vs, b.cards, b.live, h.pinnedCells, from, scan, b.plan.demand.at,
        Past(pages, idx + size), true)
    requires asked.Pages() <= free && CountGen(h.descs, Free) == free - asked.Pages() + |Unpinned(b.vs.descs, chunk)|
    requires PlanTurned(h.Geo(), b, h.pinnedCells, from, dest, pages, idx, size, chunk, free, asked, at.straight)
    requires NoPinBytes(b.vs) ==> NoPinBytes(h.V())
    requires Roomy(b.vs, from) ==> CountGen(b.vs.descs, Free) <= free && asked.Pages() <= size
    ensures Midway(h, from, dest, pages, idx + size, roots, scan, pinned, b,
                   Progress(phi, asked.Next(Unpinned(b.vs.descs, chunk)),
                            at.straight
                                && NoBack(h.Geo(), b.vs, b.live, h.pinnedCells, Members(chunk),
                                Tail(pages, idx + size))))
  {
    hide Starts, GeoOk, Lawful, HeapOk, PassState, WellPaired, Before, Tail, PagesIn, Gone, Shut, KeptUp, PinsOk,
      CountGen, PlanFrom, DemandSoFar, AsPacked, PutBy, AllUnseen, Unpinned, Members, Passing, NoBack, NoPinBytes,
      ConsesOf;
    ChunkFacts(b.vs, from, pages, idx, size, chunk);
    if b.hidden { UnseenFewer(scan, from, Tail(pages, idx), Tail(pages, idx + size)); }
    TailWhole(pages, idx);
    PlannedPlaces(h.Geo(), b, h.pinnedCells, from, dest, pages, idx, size, chunk, free, asked, at.straight);
    KeysPast(h.Geo(), b.vs, b.live - h.pinnedCells, from, pages, idx, size, chunk, at.d);
    assert Past(pages, idx) + Before(chunk, size) == Past(pages, idx + size);
    PutMoreBy(at.phi, phi, b.plan.demand.at, asked.at, b.live - h.pinnedCells, Past(pages, idx), Before(chunk, size),
      Tail(pages, idx));
    if Roomy(b.vs, from) { UnpinnedAll(b.vs, chunk); }
  }

  /** The plan leaves the objects of the chunk where its packing puts them. */
  lemma PlannedPlaces(g: Geometry, b: Setting, pins: set<nat>, from: Generation, dest: Generation, pages: seq<nat>,
                      i: nat, n: nat, chunk: seq<nat>, free: nat, asked: Demand, straight: bool)
    requires i + n <= |pages| && chunk == pages[i..i + n] && pages == PagesIn(b.vs.descs, from)
    requires asked.Pages() <= free && PlanTurned(g, b, pins, from, dest, pages, i, n, chunk, free, asked, straight)
    ensures forall s: nat | s / PAGE_CELLS in Before(chunk, n) ::
              && (s in b.plan.demand.at <==> s in asked.at) && (s in asked.at ==> b.plan.demand.at[s] == asked.at[s])
  {
    hide PlanFrom, PagesIn, Unpinned, NoBack, Tail, Before;
    ChunkFacts(b.vs, from, pages, i, n, chunk);
    var freed := Unpinned(b.vs.descs, chunk);
    forall s: nat | s / PAGE_CELLS in Before(chunk, n)
      ensures s in b.plan.demand.at <==> s in asked.at
      ensures s in asked.at ==> b.plan.demand.at[s] == asked.at[s]
    {
      PlanPuts(g, b.vs, b.live, pins, from, dest, pages, i + n, free - asked.Pages() + |freed|, asked.Next(freed), s);
    }
  }

  lemma KeysPast(g: Geometry, vs: View, move: set<nat>, from: Generation, pages: seq<nat>, i: nat, n: nat,
                 chunk: seq<nat>, d: Demand)
    requires i + n <= |pages| && chunk == pages[i..i + n] && pages == PagesIn(vs.descs, from)
    requires forall s | s in d.at :: s / PAGE_CELLS !in Tail(pages, i)
    ensures forall s | s in PackChunk(g, vs, move, from, chunk, n, d).at :: s / PAGE_CELLS !in Tail(pages, i + n)
  {
    hide PackChunk, PagesIn;
    ChunkFacts(vs, from, pages, i, n, chunk);
    assert chunk[..n] == chunk;
    forall s | s in PackChunk(g, vs, move, from, chunk, n, d).at ensures s / PAGE_CELLS !in Tail(pages, i + n) {
      ChunkPuts(g, vs, move, from, chunk, n, d, s);
      if s / PAGE_CELLS in chunk { assert s / PAGE_CELLS in Before(chunk, n); }
    }
  }

  lemma PutMoreBy(phi: map<nat, nat>, phi': map<nat, nat>, at: map<nat, nat>, at': map<nat, nat>, move: set<nat>,
                  past: set<nat>, done: set<nat>, rest: set<nat>)
    requires PutBy(phi, at, move, past) && PutBy(phi', at', move, done) && Unmoved(phi, phi', rest) && past !! rest
    requires forall s: nat | s / PAGE_CELLS in done :: (s in at <==> s in at') && (s in at' ==> at[s] == at'[s])
    ensures PutBy(phi', at, move, past + done)
  {
  }

  /** The scan so far, the chunk included. */
  lemma TurnPacked(g: Geometry, b: Setting, pins: set<nat>, from: Generation, dest: Generation, pages: seq<nat>,
                   i: nat, n: nat, chunk: seq<nat>, free: nat, asked: Demand, straight: bool,
                   scan: Option<seq<PageDesc>>, legible: bool)
    requires i + n <= |pages| && chunk == pages[i..i + n] && pages == PagesIn(b.vs.descs, from) && from != Free
    requires GeoOk(g) && Shaped(g, b.vs)
    requires asked.Pages() <= free && PlanTurned(g, b, pins, from, dest, pages, i, n, chunk, free, asked, straight)
    requires AsPacked(g, b.vs, b.cards, b.live, pins, from, scan, b.plan.demand.at, Past(pages, i), true)
    requires AsPacked(g, b.vs, b.cards, b.live, pins, from, scan, asked.at, Before(chunk, n), legible)
    ensures AsPacked(g, b.vs, b.cards, b.live, pins, from, scan, b.plan.demand.at, Past(pages, i + n), legible)
    ensures !legible ==>
              AsPacked(g, b.vs, b.cards, b.live, pins, from, scan, b.plan.demand.at, Past(pages, |pages|), false)
  {
    hide PlanTurned, PagesIn, Before, Tail, Garbled, PlainHeaders;
    PlannedPlaces(g, b, pins, from, dest, pages, i, n, chunk, free, asked, straight);
    ChunkFacts(b.vs, from, pages, i, n, chunk);
    TailWhole(pages, i);
    TailsEnd(pages, i + n);
    assert Past(pages, i) + Before(chunk, n) == Past(pages, i + n);
    assert Past(pages, i + n) + Tail(pages, i + n) == Past(pages, |pages|);
    var at := b.plan.demand.at;
    forall p | p in Before(chunk, n) ensures p < |b.vs.descs| && b.vs.descs[p].generation != Free {
      ChunkPage(chunk, n, p);
    }
    if PlainHeaders(g, b.vs) {
      GarbledBy(g, b.vs, b.cards, scan, from, asked.at, at, Before(chunk, n));
      GarbledParts(g, b.vs, b.cards, scan, from, at, Past(pages, i), Before(chunk, n));
      GarbledParts(g, b.vs, b.cards, scan, from, at, Past(pages, i + n), Tail(pages, i + n));
    }
  }

  lemma ChunkPage(chunk: seq<nat>, n: nat, p: nat)
    requires n <= |chunk| && p in Before(chunk, n)
    ensures exists j :: 0 <= j < n && chunk[j] == p
  {
    var j :| 0 <= j < n && chunk[..n][j] == p;
    assert chunk[j] == p;
  }

  lemma TailsEnd(pages: seq<nat>, i: nat)
    requires i <= |pages|
    ensures Tail(pages, i) <= Tail(pages, 0) && Tail(pages, |pages|) == {}
  {
  }

  lemma TailWhole(pages: seq<nat>, i: nat)
    requires i <= |pages|
    ensures Tail(pages, i) <= Tail(pages, 0)
  {
  }

  /** What the invariant says besides. */
  lemma MidwayFacts(h: PageHeap, from: Generation, dest: Generation, pages: seq<nat>, i: nat, roots: seq<u64>,
                    scan: Option<seq<PageDesc>>, pinned: seq<(nat, bool)>, b: Setting, at: Progress)
    requires i <= |pages| && Midway(h, from, dest, pages, i, roots, scan, pinned, b, at)
    ensures h.Valid() && Shaped(h.Geo(), b.vs) && PinsOk(b.vs, h.pinnedCells)
    ensures PutBy(at.phi, b.plan.demand.at, b.live - h.pinnedCells, Past(pages, i)) && GeoOk(h.Geo())
    ensures AsPacked(h.Geo(), b.vs, b.cards, b.live, h.pinnedCells, from, scan, b.plan.demand.at, Past(pages, i), true)
    ensures DemandSoFar(h.descs, h.V(), h.regions, h.freeList, dest, at.d)
    ensures NoPinBytes(b.vs) ==> NoPinBytes(h.V())
    ensures Roomy(b.vs, from) ==> CountGen(b.vs.descs, Free) <= CountGen(h.descs, Free)
  {
    hide Starts, GeoOk, MemoryOk, PagesOk, RegionsOk, Sealed, PinsOk, SnapshotOf, NoLarge, PassState, FlippedOnly,
      CardsClean, KeptUp, WellPaired, DemandSoFar, PlanFrom, AsPacked, PutBy, NoPinBytes, Roomy, CountGen, Tail;
  }

  /** The card scan of some chunk does not come through. */
  ghost predicate ScanFails(h: PageHeap, from: Generation, pages: seq<nat>, scan: Option<seq<PageDesc>>, b: Setting)
    reads h
  {
    && GeoOk(h.Geo()) && Shaped(h.Geo(), b.vs)
    && AsPacked(h.Geo(), b.vs, b.cards, b.live, h.pinnedCells, from, scan, b.plan.demand.at, Past(pages, |pages|),
          false)
  }

  /** One turn of the chunk loop, as planned. */
  method Turn(h: PageHeap, from: Generation, dest: Generation, pages: seq<nat>, idx: nat, size: nat, roots: array<u64>,
              scan: Option<seq<PageDesc>>, pinned: seq<(nat, bool)>, ghost b: Setting, ghost at: Progress)
    returns (outcome: Outcome, freed: nat, flipped: nat, ghost next: Progress)
    requires idx < |pages| && Midway(h, from, dest, pages, idx, roots[..], scan, pinned, b, at)
    requires pages == PagesIn(b.vs.descs, from) && RootsApart(h, roots) && (scan.Some? ==> |scan.value| == h.nPages)
    requires size == ChunkSize(h.descs, h.pinnedCells, from, |pages| - idx)
    requires HasRegion(from, Cons) && HasRegion(dest, Cons) && b.live == LiveSet(b.vs, from, h.markTable.Map())
    requires forall s | s in h.pinnedCells :: s in b.live
    requires b.ready ==> Readied(h, scan, from, b)
    modifies h`descs, h`regions, h`bytesAlloc, h`committed, h`freeList, h`highWater, h.cells, h.startTable.bits,
      h.cards, roots
    ensures h.Valid()
    ensures outcome.Done? ==> Midway(h, from, dest, pages, idx + size, roots[..], scan, pinned, b, next)
    ensures outcome.Done? ==>
              freed == |Unpinned(b.vs.descs, pages[idx..idx + size])| && freed + flipped == size
    ensures outcome.Exhausted? ==> Blocked(h, dest) || !b.plan.affords
    ensures outcome.Misread? ==> !ScanFits(scan, b.vs, b.live - h.pinnedCells, from)
    ensures outcome.Misread? ==> ScanFails(h, from, pages, scan, b)
    ensures Roomy(b.vs, from) && !Blocked(h, dest) ==> outcome.Done?
  {
    hide Starts, GeoOk, Lawful, MemoryOk, PagesOk, RegionsOk, HeapOk, Sealed, PinsOk, SnapshotOf, NoLarge, Marks,
      Unmoved, PassState, WellPaired, Before, LiveSet, GraphReady, ClosedHeap, NoPinBytes, Tail, ScanFits, PagesIn,
      PinnedPages, Gone, Shut, KeptUp, CountGen, PagesAsked, Blocked, ConsesOf, PlanFrom, Pending, DemandSoFar,
      AsPacked, PutBy, AllUnseen, FlippedOnly, CardsClean, Cut, Unpinned, Members, NoBack, PackChunk, ScanSkips,
      Released, Passing, Placed, Midway, Roomy;
    ghost var vs, free, marks := b.vs, CountGen(h.descs, Free), h.markTable.Map();
    ghost var rest, closed := Tail(pages, idx), Shut(vs.descs, pages, idx);
    var chunk := pages[idx..idx + size];
    TurnStart(h, from, dest, pages, idx, size, chunk, roots[..], scan, pinned, b, at);
    MidwayFacts(h, from, dest, pages, idx, roots[..], scan, pinned, b, at);
    TurnPlan(h, from, dest, pages, idx, size, chunk, roots[..], scan, pinned, b, at,
             PackChunk(h.Geo(), vs, b.live - h.pinnedCells, from, chunk, size, at.d));
    ghost var phi, asked;
    outcome, freed, flipped, phi, asked :=
        PassChunk(h, from, dest, chunk, roots, scan, pinned, vs, b.cards, b.roots, at.phi, b.live,
                                                     rest, closed, at.d, b.ready, b.hidden, at.straight);
    if !outcome.Exhausted? {
      TurnPacked(h.Geo(), b, h.pinnedCells, from, dest, pages, idx, size, chunk, free, asked, at.straight, scan,
        outcome.Done?);
    }
    if outcome.Misread? {
      ChunkFacts(vs, from, pages, idx, size, chunk);
      TurnMisread(vs, b.live - h.pinnedCells, from, chunk, scan);
      if Roomy(vs, from) { RoomyFits(vs, from, marks, h.pinnedCells, scan); }
    }
    next := Progress(phi, asked.Next(Unpinned(vs.descs, chunk)),
                     at.straight
                         && NoBack(h.Geo(), vs, b.live, h.pinnedCells, Members(chunk), Tail(pages, idx + size)));
    if !outcome.Done? { return; }
    TurnEnd(h, from, dest, pages, idx, size, chunk, roots[..], scan, pinned, b, at, asked, phi, free);
  }

  /** The chunk loop: however many chunks it takes, every source page is dealt with. */
  method ChunkLoop(h: PageHeap, from: Generation, dest: Generation, pages: seq<nat>, roots: array<u64>,
                   scan: Option<seq<PageDesc>>, pinned: seq<(nat, bool)>, ghost b: Setting, ghost at0: Progress)
    returns (outcome: Outcome, freed: nat, flipped: nat, ghost at: Progress)
    requires Midway(h, from, dest, pages, 0, roots[..], scan, pinned, b, at0)
    requires pages == PagesIn(b.vs.descs, from) && RootsApart(h, roots) && (scan.Some? ==> |scan.value| == h.nPages)
    requires HasRegion(from, Cons) && HasRegion(dest, Cons) && b.live == LiveSet(b.vs, from, h.markTable.Map())
    requires forall s | s in h.pinnedCells :: s in b.live
    requires b.ready ==> Readied(h, scan, from, b)
    modifies h`descs, h`regions, h`bytesAlloc, h`committed, h`freeList, h`highWater, h.cells, h.startTable.bits,
      h.cards, roots
    ensures h.Valid()
    ensures outcome.Done? ==>
              && Midway(h, from, dest, pages, |pages|, roots[..], scan, pinned, b, at)
              && freed == |Unpinned(b.vs.descs, pages)| && freed + flipped == |pages|
    ensures outcome.Exhausted? ==> Blocked(h, dest) || !b.plan.affords
    ensures outcome.Misread? ==> !ScanFits(scan, b.vs, b.live - h.pinnedCells, from)
    ensures outcome.Misread? ==> ScanFails(h, from, pages, scan, b)
    ensures Roomy(b.vs, from) && !Blocked(h, dest) ==> outcome.Done?
  {
    hide Starts, GeoOk, Marks, Midway, WellPaired, ScanFails, LiveSet, GraphReady, ClosedHeap, ScanFits, PagesIn,
      PinnedPages, Blocked, Roomy, Cut, CountGen, Unpinned;
    outcome, freed, flipped, at := Done, 0, 0, at0;
    UnpinnedNone(b.vs.descs, pages);
    MidwayFacts(h, from, dest, pages, 0, roots[..], scan, pinned, b, at0);
    var idx := 0;
    while idx < |pages|
      invariant h.Valid() && outcome.Done? && idx <= |pages|
      invariant freed == |Unpinned(b.vs.descs, pages[..idx])| && freed + flipped == idx
      invariant Midway(h, from, dest, pages, idx, roots[..], scan, pinned, b, at)
    {
      var size := ChunkSize(h.descs, h.pinnedCells, from, |pages| - idx);
      var more, kept;
      outcome, more, kept, at := Turn(h, from, dest, pages, idx, size, roots, scan, pinned, b, at);
      if !outcome.Done? { return; }
      freed, flipped := freed + more, flipped + kept;
      UnpinnedSplit(b.vs.descs, pages, idx, size);
      idx := idx + size;
    }
    assert pages[..idx] == pages;
  }

  // -- The whole pass -------------------------------------------------------

  /** The demand before the first chunk. */
  lemma DemandStart(v: View, regions: seq<AllocRegion>, regions': seq<AllocRegion>, freeList: seq<nat>,
                    from: Generation, dest: Generation)
    requires HasRegion(from, Cons) && HasRegion(dest, Cons) && |regions| == 6 && regions' == Afresh(regions, from)
    ensures DemandSoFar(v.descs, v, regions', freeList, dest,
        FirstDemand(regions, Shelf(v.descs, freeList), from, dest))
    ensures Fresh(FirstDemand(regions, Shelf(v.descs, freeList), from, dest))
    ensures FirstDemand(regions, Shelf(v.descs, freeList), from, dest).at == map[]
  {
    hide CountGen, Fits, Shelf, FillOf, OpenPage, Afresh;
    FreshFits(FirstDemand(regions, Shelf(v.descs, freeList), from, dest));
  }

  /** The invariant of the chunk loop before the first chunk. */
  lemma LoopStart(h: PageHeap, from: Generation, dest: Generation, pages: seq<nat>, roots: seq<u64>,
                  scan: Option<seq<PageDesc>>, pinned: seq<(nat, bool)>, b: Setting, d: Demand)
    requires h.Inv() && HeapOk(h.Geo(), h.V()) && NoLarge(h.V()) && PinsOk(h.V(), h.pinnedCells) && b.vs == h.V()
    requires SnapshotOf(h.V(), h.pinnedCells, pinned) && b.cards == h.cards[..] && b.roots == roots
    requires pages == PagesIn(h.descs, from) && Sealed(h.descs, h.regions, Tail(pages, 0))
    requires b.live == LiveSet(h.V(), from, h.markTable.Map()) && |h.markTable.Map()| == |b.vs.starts|
    requires DemandSoFar(h.descs, h.V(), h.regions, h.freeList, dest, d) && Fresh(d) && d.at == map[]
    requires b.plan == PlanFrom(h.Geo(), b.vs, b.live, h.pinnedCells, from, dest, pages, 0, CountGen(h.descs, Free), d)
    requires b.ready ==> GraphKept(h.Geo(), b.vs, b.vs, Staying(b.live), roots, roots)
    requires b.hidden ==> AllUnseen(scan, from, Tail(pages, 0))
    ensures Midway(h, from, dest, pages, 0, roots, scan, pinned, b, Progress(Staying(b.live), d, true))
  {
    hide Starts, GeoOk, MemoryOk, PagesOk, RegionsOk, HeapOk, Sealed, PinsOk, SnapshotOf, NoLarge, Marks, PassState,
      WellPaired, GraphKept, NoPinBytes, Tail, CardsClean, PlanFrom, DemandSoFar, CountGen, Gone, Shut, AllUnseen,
      PagesIn, LiveSet, ConsesOf;
    var g, rest := h.Geo(), Tail(pages, 0);
    TailAll(b.vs.descs, from);
    StateStart(g, b.vs, b.cards, h.markTable.Map(), h.pinnedCells, from, dest, rest);
    StateHeapOk(g, b.vs, b.cards, b.vs, b.cards, Staying(b.live), b.live, h.pinnedCells, from, dest, rest);
    TrackedStart(g, b.vs, b.live, h.pinnedCells, from, dest, roots);
    UpAtStart(g, b.vs, b.cards, scan, h.markTable.Map(), b.live, h.pinnedCells, from, dest, rest, roots, b.ready,
        b.hidden);
    assert rest - rest == {} && FlippedOnly(b.vs, rest - rest, h.pinnedCells);
    NothingPacked(g, b, h.pinnedCells, from, pages, scan);
  }

  lemma NothingPacked(g: Geometry, b: Setting, pins: set<nat>, from: Generation, pages: seq<nat>,
                      scan: Option<seq<PageDesc>>)
    requires GeoOk(g) && Shaped(g, b.vs)
    ensures PutBy(Staying(b.live), b.plan.demand.at, b.live - pins, Past(pages, 0))
    ensures AsPacked(g, b.vs, b.cards, b.live, pins, from, scan, b.plan.demand.at, Past(pages, 0), true)
  {
    hide CardLegible, PlainHeaders, WithMarkers, CardScanned;
    assert Past(pages, 0) == {};
  }

  lemma OthersLive(g: Geometry, v: View, from: Generation, marks: seq<bool>)
    requires Shaped(g, v) && |marks| == |v.starts|
    ensures forall s | s in AllObjs(v) && GenAt(v, s) != from :: s in LiveSet(v, from, marks)
  {
  }

  lemma UpAtStart(g: Geometry, vs: View, cards: seq<bool>, scan: Option<seq<PageDesc>>, marks: seq<bool>,
                  live: set<nat>, pins: set<nat>, from: Generation, dest: Generation, rest: set<nat>, roots: seq<u64>,
                  ready: bool, hidden: bool)
    requires GeoOk(g) && Shaped(g, vs) && InRange(g, Staying(live)) && RootsTracked(g, Staying(live), roots, roots)
    requires live == LiveSet(vs, from, marks) && |marks| == |vs.starts|
    requires FieldsTracked(g, vs, vs, Staying(live), live, pins, from, dest, true)
    requires ready ==> GraphKept(g, vs, vs, Staying(live), roots, roots)
    ensures KeptUp(g, vs, vs, Staying(live), live, pins, from, dest, rest, CardRoots(g, vs, cards, scan, from), roots,
                   roots, ready, hidden, true)
  {
    hide FieldsTracked, RootsTracked, GraphKept, LayoutAt, SizeOf, CardRoots, CardsTracked;
    OthersLive(g, vs, from, marks);
    CardsStart(g, vs, cards, scan, from, live);
  }

  /** Steps 2 and 3: after the mark, every chunk of the source in turn. */
  method AllChunks(h: PageHeap, from: Generation, dest: Generation, roots: array<u64>, scan: Option<seq<PageDesc>>,
                   ghost ready: bool, ghost hidden: bool)
    returns (outcome: Outcome, freed: nat, flipped: nat, pinned: seq<(nat, bool)>, ghost b: Setting, ghost at: Progress)
    requires PassReady(h, from) && dest != Free && RootsApart(h, roots) && (scan.Some? ==> |scan.value| == h.nPages)
    requires forall s | s in h.pinnedCells :: s in LiveSet(h.V(), from, h.markTable.Map())
    requires ready ==> GraphStarts(h, from, roots[..], scan)
    requires hidden ==> AllUnseen(scan, from, Tail(PagesIn(h.descs, from), 0))
    modifies h`descs, h`regions, h`bytesAlloc, h`committed, h`freeList, h`highWater, h.cells, h.startTable.bits,
      h.cards, roots
    ensures h.Valid() && b.vs == old(h.V()) && b.cards == old(h.cards[..]) && b.roots == old(roots[..])
    ensures b.live == LiveSet(b.vs, from, h.markTable.Map()) && b.ready == ready && b.hidden == hidden
    ensures b.plan == PlanPass(h.Geo(), b.vs, old(h.regions), Shelf(old(h.descs), old(h.freeList)), b.live,
        h.pinnedCells, from, dest)
    ensures outcome.Done? ==>
        Midway(h, from, dest, PagesIn(b.vs.descs, from), |PagesIn(b.vs.descs, from)|, roots[..], scan, pinned, b, at)
    ensures outcome.Done? ==> freed == |Unpinned(b.vs.descs, PagesIn(b.vs.descs, from))|
                              && freed + flipped == |PagesIn(b.vs.descs, from)|
    ensures outcome.Exhausted? ==> Blocked(h, dest) || !b.plan.affords
    ensures outcome.Misread? ==> !ScanFits(scan, b.vs, b.live - h.pinnedCells, from)
    ensures outcome.Misread? ==> ScanFails(h, from, PagesIn(b.vs.descs, from), scan, b)
    ensures Roomy(b.vs, from) && !Blocked(h, dest) ==> outcome.Done?
  {
    hide Starts, GeoOk, Lawful, MemoryOk, PagesOk, RegionsOk, HeapOk, Sealed, PinsOk, SnapshotOf, NoLarge, Marks,
      PassState, WellPaired, ScanFails, LiveSet, GraphReady, GraphKept, ClosedHeap, NoPinBytes, Tail, ScanFits, Roomy,
      CountGen, Blocked, Midway, PlanFrom, AllUnseen, PagesIn, DemandSoFar, CardsClean, FirstDemand;
    ghost var g, vs, marks, regions0 := h.Geo(), h.V(), h.markTable.Map(), h.regions;
    PassShape(h, from);
    pinned := PinSnapshot(h);
    var pages := PagesIn(h.descs, from);
    TailAll(vs.descs, from);
    ResetRegions(h, from, Tail(pages, 0));
    ghost var live, shelf := LiveSet(vs, from, marks), Shelf(h.descs, h.freeList);
    ghost var d := FirstDemand(regions0, shelf, from, dest);
    DemandStart(vs, regions0, h.regions, h.freeList, from, dest);
    b := Setting(vs, h.cards[..], roots[..], live, PlanPass(g, vs, regions0, shelf, live, h.pinnedCells, from, dest),
        ready,
      hidden);
    at := Progress(Staying(live), d, true);
    LoopStart(h, from, dest, pages, roots[..], scan, pinned, b, d);
    outcome, freed, flipped, at := ChunkLoop(h, from, dest, pages, roots, scan, pinned, b, at);
  }

  /** After the mark, the graph theorem applies. */
  ghost predicate GraphStarts(h: PageHeap, from: Generation, roots: seq<u64>, scan: Option<seq<PageDesc>>)
    reads h, h.cells, h.startTable.bits, h.markTable.bits, h.cards
  {
    var live := LiveSet(h.V(), from, h.markTable.Map());
    && Shaped(h.Geo(), h.V()) && GraphReady(h.Geo(), h.V(), h.cards[..], scan, roots, h.pinnedCells, from)
    && ClosedHeap(h.Geo(), h.V(), live) && GraphKept(h.Geo(), h.V(), h.V(), Staying(live), roots, roots)
  }

  /** Step 4, the end-of-cycle cleanup. */
  method EndPass(h: PageHeap, from: Generation, dest: Generation, ghost v: View, ghost vs: View,
                 ghost cards0: seq<bool>, ghost phi: map<nat, nat>, ghost live: set<nat>, ghost closed: set<nat>,
                 pinned: seq<(nat, bool)>)
    requires Passing(h, vs, cards0, phi, live, from, dest, {}, closed, pinned) && PinBytesOnly(v, vs)
    requires Shaped(h.Geo(), v)
    requires from != Free && dest != Free && (forall s | s in h.explicitPins :: s in h.pinnedCells)
    requires PinnedBy(v, vs, h.pinnedCells)
    requires NoPinBytes(v) && h.pinnedCells == {} ==> NoPinBytes(h.V())
    modifies h`liveCounts, h`liveTarget, h.markTable.bits
    ensures h.Valid() && h.V() == old(h.V())
    ensures PassDone(h, from, dest, v, cards0, phi, live)
    ensures NoMarksIn(h.V(), from, h.markTable.Map()) && h.liveCounts == seq(h.nPages, _ => 0)
    ensures MarksElsewhere(h.V(), from, old(h.markTable.Map()), h.markTable.Map())
  {
    hide Starts, GeoOk, MemoryOk, PagesOk, RegionsOk, HeapOk, Sealed, PinsOk, SnapshotOf, NoLarge, Marks, PassState,
      WellPaired, PinBytesOnly, PassDone, NoPinBytes, PinnedBy;
    ClearMarkBitsInGen(h, from);
    h.liveCounts := seq(h.nPages, _ => 0);
    h.liveTarget := None;
    PassOver(h, from, dest, v, vs, cards0, phi, live, closed, pinned);
  }

  /** How a pass ends as far as its card scan goes: it stops for it exactly if the scan is led to a
      marker it cannot take for a header, with objects forwarded to where the plan puts them. */
  ghost predicate ScanEnds(g: Geometry, v: View, cards: seq<bool>, scan: Option<seq<PageDesc>>, from: Generation,
                           plan: Plan, outcome: Outcome)
  {
    && GeoOk(g) && Shaped(g, v)
    && var garbled := Garbled(g, v, cards, scan, from, plan.demand.at, Members(PagesIn(v.descs, from)));
       PlainHeaders(g, v) ==> (outcome.Misread? ==> garbled) && (outcome.Done? ==> !garbled)
  }

  /** What the loop's end means in the terms of the heap before the mark. */
  lemma LoopEnd(h: PageHeap, from: Generation, dest: Generation, v: View, roots0: seq<u64>, roots: seq<u64>,
                visited: set<nat>, scan: Option<seq<PageDesc>>, pinned: seq<(nat, bool)>, b: Setting, at: Progress)
    requires var pages := PagesIn(b.vs.descs, from); Midway(h, from, dest, pages, |pages|, roots, scan, pinned, b, at)
    requires PinBytesOnly(v, b.vs) && PinnedBy(v, b.vs, h.pinnedCells) && Shaped(h.Geo(), v) && b.roots == roots0
    requires b.live == LiveSet(b.vs, from, h.markTable.Map()) && (forall s | s in h.pinnedCells :: s in b.live)
    requires MarkedExactly(h.Geo(), b.vs, from, EvacSeeds(h.Geo(), b.vs, from, roots0, visited, h.pinnedCells),
        h.markTable.Map())
    requires from != Free && Shaped(h.Geo(), b.vs) && visited == CardRoots(h.Geo(), b.vs, b.cards, scan, from)
    ensures AsPlanned(h.Geo(), v, h.V(), h.pinnedCells, from, at.phi, b.plan)
    ensures b.ready && (from == dest || b.plan.straight) ==> GraphKept(h.Geo(), v, h.V(), at.phi, roots0, roots)
    ensures b.hidden && from != dest && !b.plan.straight ==>
              Broken(h.Geo(), v, h.V(), at.phi, h.pinnedCells, {}) && !Iso(h.Geo(), v, h.V(), at.phi)
    ensures ScanEnds(h.Geo(), v, b.cards, scan, from, b.plan, Done)
    ensures AllTracked(h.Geo(), v, h.V(), at.phi, b.live, h.pinnedCells, from, dest, b.plan.straight, visited,
                       roots0, roots)
    ensures TablesAsPlanned(h.regions, Shelf(h.descs, h.freeList), dest, b.plan.demand)
    ensures NoPinBytes(b.vs) ==> NoPinBytes(h.V())
    ensures Roomy(b.vs, from) ==> CountGen(b.vs.descs, Free) <= CountGen(h.descs, Free)
  {
    hide Starts, GeoOk, MarkedExactly, EvacSeeds, LiveSet, Marks, PinsFollow, GraphKept, PinBytesOnly, NoPinBytes,
      Roomy, CountGen, Broken, PagesIn, PinsOk, Released, Iso, Passing, DemandSoFar, KeptUp, AsPacked, PutBy, PlanFrom,
      Tail, Shut, Gone, PinnedBy, FlippedOnly, AsPut, Lawful, WellPaired, Members, Garbled, PlainHeaders, Shelf,
      TablesAsPlanned, FieldsTracked, RootsTracked, Tended;
    var g, pins, vs, pages := h.Geo(), h.pinnedCells, b.vs, PagesIn(b.vs.descs, from);
    SamePages(v, vs, from);
    PassingFacts(h, vs, b.cards, at.phi, b.live, from, dest, Tail(pages, |pages|), Shut(vs.descs, pages, |pages|),
      pinned);
    StateHeapOk(g, vs, b.cards, h.V(), h.cards[..], at.phi, b.live, pins, from, dest, Tail(pages, |pages|));
    TailAll(vs.descs, from);
    TailMembers(pages);
    LoopShut(v, vs, pins, pages);
    PlanEnd(g, vs, b.live, pins, from, dest, pages, CountGen(h.descs, Free), at.d);
    PassingFlipped(h, vs, b.cards, at.phi, b.live, from, dest, Shut(vs.descs, pages, |pages|), pinned);
    MidwayFacts(h, from, dest, pages, |pages|, roots, scan, pinned, b, at);
    DemandTables(h.descs, h.V(), h.regions, h.freeList, dest, at.d);
    PutAtEnd(v, vs, at.phi, b.live, pins, from, pages, b.plan.demand.at);
    PlacedShape(g, vs, h.V(), at.phi, b.live, pins, from, dest, {});
    KeptUpEnd(g, vs, h.V(), at.phi, b.live, pins, from, dest, {}, visited, roots0, roots, b.ready, b.hidden,
        at.straight);
    PinsInPlace(g, vs, h.V(), at.phi, b.live, pins, from, dest, {});
    PinsFollowEnd(g, vs, h.V(), at.phi, b.live, from, dest, roots0, visited, pins, h.markTable.Map(),
      at.straight);
    FollowSansPins(g, v, vs, h.V(), at.phi, pins);
    TrackedSansPins(g, v, vs, h.V(), at.phi, b.live, pins, from, dest, at.straight);
    CardsTrackedSansPins(g, v, vs, h.V(), at.phi, visited, from);
    assert Past(pages, |pages|) == Members(pages);
    ScanSeen(g, v, b, pins, from, scan, true);
    if b.ready && (from == dest || b.plan.straight) { KeptSansPins(g, v, vs, h.V(), at.phi, roots0, roots); }
    if b.hidden && from != dest && !b.plan.straight { BrokenSansPins(g, v, vs, h.V(), at.phi, pins); }
  }

  lemma SamePages(v: View, vs: View, from: Generation)
    requires PinBytesOnly(v, vs)
    ensures PagesIn(vs.descs, from) == PagesIn(v.descs, from) && CountGen(vs.descs, Free) == CountGen(v.descs, Free)
  {
    SamePagesIn(v.descs, vs.descs, from);
    SamePagesIn(v.descs, vs.descs, Free);
  }

  lemma ShelfSansPins(v: View, vs: View, list: seq<nat>)
    requires PinBytesOnly(v, vs)
    ensures Shelf(vs.descs, list) == Shelf(v.descs, list)
  {
    ShelfSame(v.descs, vs.descs, list);
  }

  lemma TailMembers(pages: seq<nat>)
    ensures Tail(pages, 0) == Members(pages)
  {
    assert pages[0..] == pages;
  }

  /** Released in the end: what carries no pin. */
  lemma LoopShut(v: View, vs: View, pins: set<nat>, pages: seq<nat>)
    requires PinBytesOnly(v, vs) && PinnedBy(v, vs, pins) && forall p | p in pages :: p < |v.descs|
    ensures Gone(vs.descs, pages, |pages|) == Members(Released(v.descs, pins, pages))
    ensures Shut(vs.descs, pages, |pages|) == Members(pages) - Members(Released(v.descs, pins, pages))
  {
    hide Released, Unpinned, PinsOk, PinBytesOnly;
    assert pages[..|pages|] == pages;
    SameLength(v, vs);
    ReleasedUnpinned(v.descs, vs.descs, pins, pages);
  }

  lemma SameLength(v: View, vs: View)
    requires PinBytesOnly(v, vs)
    ensures |vs.descs| == |v.descs|
  {
  }

  lemma PassingFlipped(h: PageHeap, vs: View, cardsS: seq<bool>, phi: map<nat, nat>, live: set<nat>, from: Generation,
                       dest: Generation, closed: set<nat>, pinned: seq<(nat, bool)>)
    requires Passing(h, vs, cardsS, phi, live, from, dest, {}, closed, pinned)
    ensures FlippedOnly(h.V(), closed, h.pinnedCells)
  {
    hide Starts, GeoOk, MemoryOk, PagesOk, RegionsOk, Sealed, PinsOk, SnapshotOf, NoLarge, PassState, FlippedOnly,
      CardsClean, WellPaired;
    assert closed - {} == closed;
  }

  lemma DemandTables(before: seq<PageDesc>, v: View, regions: seq<AllocRegion>, freeList: seq<nat>, dest: Generation,
                     d: Demand)
    requires DemandSoFar(before, v, regions, freeList, dest, d)
    ensures TablesAsPlanned(regions, Shelf(v.descs, freeList), dest, d)
  {
    hide Fits, Shelf, CountGen;
  }

  lemma PutAtEnd(v: View, vs: View, phi: map<nat, nat>, live: set<nat>, pins: set<nat>, from: Generation,
                 pages: seq<nat>, at: map<nat, nat>)
    requires PinBytesOnly(v, vs) && pages == PagesIn(vs.descs, from) && phi.Keys == live
    requires PutBy(phi, at, live - pins, Past(pages, |pages|))
    ensures AsPut(v, phi, pins, from, at)
  {
    hide PagesIn;
    TailAll(vs.descs, from);
    TailsEnd(pages, 0);
  }

  /** How the scan ends, seen from before the mark. */
  lemma ScanSeen(g: Geometry, v: View, b: Setting, pins: set<nat>, from: Generation, scan: Option<seq<PageDesc>>,
                 legible: bool)
    requires GeoOk(g) && PinBytesOnly(v, b.vs) && Shaped(g, v) && Shaped(g, b.vs) && from != Free
    requires var pages := PagesIn(b.vs.descs, from);
      AsPacked(g, b.vs, b.cards, b.live, pins, from, scan, b.plan.demand.at, Past(pages, |pages|), legible)
    ensures PlainHeaders(g, v) ==>
              (legible <==> !Garbled(g, v, b.cards, scan, from, b.plan.demand.at, Members(PagesIn(v.descs, from))))
  {
    hide PlainHeaders, Garbled, PagesIn, Members, Tail;
    var pages := PagesIn(b.vs.descs, from);
    SamePages(v, b.vs, from);
    TailAll(b.vs.descs, from);
    TailMembers(pages);
    assert Past(pages, |pages|) == Members(pages);
    if PlainHeaders(g, v) {
      PlainSansPins(g, v, b.vs);
      GarbledSansPins(g, v, b.vs, b.cards, scan, from, b.plan.demand.at, Members(pages));
    }
  }

  lemma LoopPassing(h: PageHeap, from: Generation, dest: Generation, roots: seq<u64>, scan: Option<seq<PageDesc>>,
                    pinned: seq<(nat, bool)>, b: Setting, at: Progress)
    requires var pages := PagesIn(b.vs.descs, from); Midway(h, from, dest, pages, |pages|, roots, scan, pinned, b, at)
    ensures var pages := PagesIn(b.vs.descs, from);
      Passing(h, b.vs, b.cards, at.phi, b.live, from, dest, {}, Shut(b.vs.descs, pages, |pages|), pinned)
  {
    hide Starts, GeoOk, KeptUp, DemandSoFar, PlanFrom, AsPacked, PutBy, Passing, PagesIn, Shut, WellPaired;
    TailAll(b.vs.descs, from);
  }

  lemma PinsInPlace(g: Geometry, vs: View, v: View, phi: map<nat, nat>, live: set<nat>, pins: set<nat>,
                    from: Generation, dest: Generation, rest: set<nat>)
    requires Placed(g, vs, v, phi, live, pins, from, dest, rest) && forall s | s in pins :: s in live
    ensures forall s | s in pins :: s in phi && phi[s] == s && s / PAGE_CELLS < |vs.descs|
  {
    hide SameShape;
    forall s | s in pins ensures s in phi && phi[s] == s && s / PAGE_CELLS < |vs.descs| {
      assert InPlace(g, vs, v, pins, from, dest, rest, s, phi[s]);
      ShapeFit(g, vs, v, s, phi[s]);
    }
  }

  lemma KeptUpEnd(g: Geometry, vs: View, v: View, phi: map<nat, nat>, live: set<nat>, pins: set<nat>, from: Generation,
                  dest: Generation, rest: set<nat>, visited: set<nat>, rootsS: seq<u64>, roots: seq<u64>, ready: bool,
                  hidden: bool, straight: bool)
    requires GeoOk(g) && Shaped(g, vs) && Shaped(g, v) && InRange(g, phi)
    requires KeptUp(g, vs, v, phi, live, pins, from, dest, rest, visited, rootsS, roots, ready, hidden, straight)
    ensures FieldsTracked(g, vs, v, phi, live, pins, from, dest, straight) && RootsTracked(g, phi, rootsS, roots)
    ensures CardsTracked(g, vs, v, phi, visited, from)
    ensures ready && (from == dest || straight) ==> GraphKept(g, vs, v, phi, rootsS, roots)
    ensures from != dest && hidden && !straight ==> Broken(g, vs, v, phi, pins, rest)
  {
    hide RestLayouts, FieldsTracked, CardsTracked, RootsTracked, GraphKept, RestWords, Broken;
  }

  lemma ScanSansPins(scan: Option<seq<PageDesc>>, v: View, vs: View, move: set<nat>, from: Generation)
    requires PinBytesOnly(v, vs)
    ensures ScanFits(scan, vs, move, from) <==> ScanFits(scan, v, move, from)
  {
    forall p: nat ensures ConsesMove(vs, move, p) <==> ConsesMove(v, move, p) {}
    hide ConsesMove;
  }

  lemma PlanBefore(g: Geometry, v: View, vs: View, regions: seq<AllocRegion>, shelf: seq<nat>, live: set<nat>,
                   pins: set<nat>, from: Generation, dest: Generation)
    requires Shaped(g, v) && PinBytesOnly(v, vs) && PinnedBy(v, vs, pins) && HasRegion(dest, Cons) && |regions| == 6
    requires forall s | s in live :: s < |v.starts|
    ensures PlanPass(g, vs, regions, shelf, live, pins, from, dest) == PlanPass(g, v, regions, shelf, live, pins, from,
        dest)
  {
    hide PlanFrom, PinBytesOnly, PinnedBy, PagesIn, CountGen;
    SamePages(v, vs, from);
    PlanSansPins(g, v, vs, live, pins, from, dest, PagesIn(v.descs, from), 0, CountGen(v.descs, Free),
      FirstDemand(regions, shelf, from, dest));
  }

  lemma LiveFits(v: View, from: Generation, marks: seq<bool>)
    ensures forall s | s in LiveSet(v, from, marks) :: s < |v.starts|
  {
  }

  /** Within the loop the graph theorem applies if it did before the mark. */
  lemma ReadyToLoop(h: PageHeap, v: View, cards0: seq<bool>, from: Generation, roots: seq<u64>,
                    scan: Option<seq<PageDesc>>)
    requires PassReady(h, from) && PinBytesOnly(v, h.V()) && Shaped(h.Geo(), v) && Shaped(h.Geo(), h.V())
    requires h.cards[..] == cards0
    requires MarkedExactly(h.Geo(), h.V(), from,
               EvacSeeds(h.Geo(), h.V(), from, roots, CardRoots(h.Geo(), h.V(), cards0, scan, from), h.pinnedCells),
                   h.markTable.Map())
    ensures GraphReady(h.Geo(), v, cards0, scan, roots, h.pinnedCells, from) ==> GraphStarts(h, from, roots, scan)
  {
    hide Starts, PassReady, GraphReady, ClosedHeap, GraphKept, MarkedExactly, EvacSeeds, CardRoots, LiveSet, Marks,
      PinBytesOnly, KeptObjs, PinsOk, HeapOk, NoLarge;
    AfterMark(h, v, cards0, from, roots, scan);
  }

  lemma ReleasedIn(v: View, vs: View, pins: set<nat>, from: Generation)
    requires PinBytesOnly(v, vs) && PinnedBy(v, vs, pins) && PagesIn(vs.descs, from) == PagesIn(v.descs, from)
    ensures Released(v.descs, pins, PagesIn(v.descs, from)) == Unpinned(vs.descs, PagesIn(vs.descs, from))
  {
    hide Released, Unpinned, PinBytesOnly, PagesOf;
    SameLength(v, vs);
    ReleasedUnpinned(v.descs, vs.descs, pins, PagesIn(v.descs, from));
  }

  /** A pass that did not come to its end. */
  lemma Stopped(h: PageHeap, v: View, from: Generation, scan: Option<seq<PageDesc>>, b: Setting, outcome: Outcome)
    requires h.Valid() && PinBytesOnly(v, b.vs) && Shaped(h.Geo(), v) && !outcome.Done? && from != Free
    requires outcome.Misread? ==> ScanFails(h, from, PagesIn(b.vs.descs, from), scan, b)
    ensures ScanEnds(h.Geo(), v, b.cards, scan, from, b.plan, outcome)
  {
    hide Starts, PlainHeaders, Garbled, PagesIn, Members, AsPacked, GeoOk, WellPaired, PinBytesOnly;
    if outcome.Misread? { ScanSeen(h.Geo(), v, b, h.pinnedCells, from, scan, false); }
  }

  /** The end of the pass, and what it all came to. */
  method ClosePass(h: PageHeap, from: Generation, dest: Generation, ghost v: View, ghost roots0: seq<u64>,
                   ghost roots: seq<u64>, ghost visited: set<nat>, ghost scan: Option<seq<PageDesc>>,
                   pinned: seq<(nat, bool)>, ghost b: Setting, ghost at: Progress)
    requires var pages := PagesIn(b.vs.descs, from); Midway(h, from, dest, pages, |pages|, roots, scan, pinned, b, at)
    requires PinBytesOnly(v, b.vs) && PinnedBy(v, b.vs, h.pinnedCells) && Shaped(h.Geo(), v) && b.roots == roots0
    requires b.live == LiveSet(b.vs, from, h.markTable.Map()) && (forall s | s in h.pinnedCells :: s in b.live)
    requires MarkedExactly(h.Geo(), b.vs, from, EvacSeeds(h.Geo(), b.vs, from, roots0, visited, h.pinnedCells),
        h.markTable.Map())
    requires from != Free && dest != Free && (forall s | s in h.explicitPins :: s in h.pinnedCells) && h.Valid()
    requires Shaped(h.Geo(), b.vs) && visited == CardRoots(h.Geo(), b.vs, b.cards, scan, from)
    requires NoPinBytes(v) && h.pinnedCells == {} ==> NoPinBytes(b.vs)
    modifies h`liveCounts, h`liveTarget, h.markTable.bits
    ensures h.Valid() && h.V() == old(h.V()) && PassDone(h, from, dest, v, b.cards, at.phi, b.live)
    ensures NoMarksIn(h.V(), from, h.markTable.Map()) && h.liveCounts == seq(h.nPages, _ => 0)
    ensures AsPlanned(h.Geo(), v, h.V(), h.pinnedCells, from, at.phi, b.plan)
    ensures b.ready && (from == dest || b.plan.straight) ==> GraphKept(h.Geo(), v, h.V(), at.phi, roots0, roots)
    ensures b.hidden && from != dest && !b.plan.straight ==>
              Broken(h.Geo(), v, h.V(), at.phi, h.pinnedCells, {}) && !Iso(h.Geo(), v, h.V(), at.phi)
    ensures ScanEnds(h.Geo(), v, b.cards, scan, from, b.plan, Done)
    ensures AllTracked(h.Geo(), v, h.V(), at.phi, b.live, h.pinnedCells, from, dest, b.plan.straight, visited,
                       roots0, roots)
    ensures TablesAsPlanned(h.regions, Shelf(h.descs, h.freeList), dest, b.plan.demand)
    ensures Roomy(b.vs, from) ==> CountGen(b.vs.descs, Free) <= CountGen(h.descs, Free)
  {
    hide Starts, GeoOk, Lawful, MemoryOk, PagesOk, RegionsOk, HeapOk, Sealed, PinsOk, NoLarge, Marks, PassState,
      WellPaired, LiveSet, GraphKept, EvacSeeds, MarkedExactly, PinBytesOnly, PassDone, NoPinBytes, Tail, Roomy,
      CountGen, AsPlanned, Midway, TablesAsPlanned, Shelf, ScanEnds, PinnedBy, PagesIn, Broken, Iso, AllTracked,
      Passing, Shut, CardsClean, SnapshotOf;
    LoopEnd(h, from, dest, v, roots0, roots, visited, scan, pinned, b, at);
    LoopPassing(h, from, dest, roots, scan, pinned, b, at);
    ghost var pages := PagesIn(b.vs.descs, from);
    EndPass(h, from, dest, v, b.vs, b.cards, at.phi, b.live, Shut(b.vs.descs, pages, |pages|), pinned);
  }

  /** `evacuate_with_roots`. Exactly the objects outside `from` and those in `from` that the roots, the scanned
      cards and the pins keep alive are left, the latter in `dest`; pinned objects stay where they are and
      their fields follow their targets. The pass runs out of pages exactly when planned, and stops at a
      marker exactly when the card scan is led to one that it cannot take for a header, which takes headed
      objects moving off pages that it sees. The object graph is preserved within one generation; a promotion
      preserves it if and only if, for a source the card scan does not see, no pointer leads from a later
      chunk back into an earlier one. */
  method Evacuate(h: PageHeap, from: Generation, dest: Generation, roots: array<u64>, scan: Option<seq<PageDesc>>)
    returns (outcome: Outcome, freed: nat, flipped: nat, ghost phi: map<nat, nat>, ghost live: set<nat>,
             ghost plan: Plan)
    requires PassReady(h, from) && h.liveTarget == None && dest != Free && RootsApart(h, roots)
    requires scan.Some? ==> |scan.value| == h.nPages
    modifies h`descs, h`regions, h`bytesAlloc, h`committed, h`freeList, h`highWater, h`pinnedCells, h`liveCounts,
      h`liveTarget, h.cells, h.startTable.bits, h.markTable.bits, h.cards, roots
    ensures h.Valid() && h.pinnedCells == old(h.pinnedCells) + h.explicitPins.Keys
    ensures live == KeptObjs(h.Geo(), old(h.V()), from,
              EvacSeeds(h.Geo(), old(h.V()), from, old(roots[..]),
                        CardRoots(h.Geo(), old(h.V()), old(h.cards[..]), scan, from), h.pinnedCells))
    ensures plan == PlanPass(h.Geo(), old(h.V()), old(h.regions), Shelf(old(h.descs), old(h.freeList)), live,
        h.pinnedCells, from, dest)
    ensures outcome.Done? ==> PassDone(h, from, dest, old(h.V()), old(h.cards[..]), phi, live)
    ensures outcome.Done? ==> AsPlanned(h.Geo(), old(h.V()), h.V(), h.pinnedCells, from, phi, plan)
    ensures outcome.Done? ==> freed == |Released(old(h.descs), h.pinnedCells, PagesIn(old(h.descs), from))|
                              && freed + flipped == |PagesIn(old(h.descs), from)|
    ensures outcome.Done? ==>
              NoMarksIn(h.V(), from, h.markTable.Map()) && h.liveCounts == seq(h.nPages, _ => 0)
    ensures outcome.Exhausted? ==> h.poisoned || (dest == G0 && from != G0) || !plan.affords
    ensures outcome.Misread? ==> !ScanFits(scan, old(h.V()), live - h.pinnedCells, from)
    ensures outcome.Done? ==> TablesAsPlanned(h.regions, Shelf(h.descs, h.freeList), dest, plan.demand)
    ensures ScanEnds(h.Geo(), old(h.V()), old(h.cards[..]), scan, from, plan, outcome)
    ensures outcome.Done? ==> AllTracked(h.Geo(), old(h.V()), h.V(), phi, live, h.pinnedCells, from, dest,
                                         plan.straight,
                                         CardRoots(h.Geo(), old(h.V()), old(h.cards[..]), scan, from),
                                         old(roots[..]), roots[..])
    ensures (outcome.Done? && (from == dest || plan.straight)
             && GraphReady(h.Geo(), old(h.V()), old(h.cards[..]), scan, old(roots[..]), h.pinnedCells, from))
            ==> GraphKept(h.Geo(), old(h.V()), h.V(), phi, old(roots[..]), roots[..])
    ensures (outcome.Done? && from != dest && !plan.straight
        && AllUnseen(scan, from, Members(PagesIn(old(h.descs), from))))
            ==> Broken(h.Geo(), old(h.V()), h.V(), phi, h.pinnedCells, {}) && !Iso(h.Geo(), old(h.V()), h.V(), phi)
    ensures (Roomy(old(h.V()), from) && old(h.pinnedCells) == {} && h.explicitPins.Keys == {} && !h.poisoned
             && (dest == G0 ==> from == G0)) ==>
                   outcome.Done? && CountGen(old(h.descs), Free) <= CountGen(h.descs, Free)
  {
    hide Starts, GeoOk, Lawful, MemoryOk, PagesOk, RegionsOk, HeapOk, Sealed, PinsOk, SnapshotOf, NoLarge, Marks,
      PassState, WellPaired, LiveSet, GraphReady, GraphKept, ClosedHeap, EvacSeeds, CardRoots, MarkedExactly, KeptObjs,
      PinBytesOnly, PassDone, PassReady, NoPinBytes, Tail, ScanFits, Roomy, CountGen, PlanPass, AsPlanned, Midway,
      TablesAsPlanned, Shelf, ScanEnds, ScanFails, PinsFollow, GraphStarts, PinnedBy, AllUnseen, PagesIn, Broken, Iso,
      Members, CardsClean, AllTracked, Passing, Shut, Owner, SizeOf, IsObj, DemandSoFar, AsPacked, KeptUp, PlanFrom,
      FirstDemand, Afresh, PutBy;
    ghost var g, v, cards0, roots0, regions0 := h.Geo(), h.V(), h.cards[..], roots[..], h.regions;
    ghost var shelf0 := Shelf(h.descs, h.freeList);
    PassShape(h, from);
    MarkForPass(h, from, roots, scan);
    ghost var vs, marks, pins, visited := h.V(), h.markTable.Map(), h.pinnedCells, CardRoots(g, v, cards0, scan, from);
    PassShape(h, from);
    AfterMark(h, v, cards0, from, roots0, scan);
    ReadyToLoop(h, v, cards0, from, roots0, scan);
    SamePages(v, vs, from);
    ShelfSansPins(v, vs, h.freeList);
    assert Shelf(h.descs, h.freeList) == shelf0;
    TailMembers(PagesIn(v.descs, from));
    ghost var ready := GraphReady(g, v, cards0, scan, roots0, pins, from);
    ghost var hidden := AllUnseen(scan, from, Members(PagesIn(v.descs, from)));
    var pinned;
    ghost var b, at;
    outcome, freed, flipped, pinned, b, at := AllChunks(h, from, dest, roots, scan, ready, hidden);
    phi, live, plan := at.phi, b.live, b.plan;
    LiveFits(vs, from, marks);
    PlanBefore(g, v, vs, regions0, shelf0, live, pins, from, dest);
    ScanSansPins(scan, v, vs, live - pins, from);
    if !outcome.Done? {
      Stopped(h, v, from, scan, b, outcome);
      return;
    }
    ReleasedIn(v, vs, pins, from);
    SameSeeds(g, v, vs, from, roots0, cards0, scan, pins);
    ClosePass(h, from, dest, v, roots0, roots[..], CardRoots(g, vs, cards0, scan, from), scan, pinned, b, at);
  }
}
