/** Collections of a whole system of mutators: slabs flushed, stack words pinned, and how it all ends. */
module RunCollections {
  import opened Bits
  import opened Options
  import opened Bitmaps
  import opened Pages
  import opened Objects
  import opened PageHeaps
  import opened Demands
  import opened Marking
  import opened Cards
  import opened Moves
  import opened Copying
  import opened EvacMarking
  import opened Graphs
  import opened Passes
  import opened Plans
  import opened PassStates
  import opened Following
  import opened PassResults
  import opened Evacuation
  import opened RootReach
  import opened OldFields
  import opened Remembered
  import opened Foresight
  import opened Cycles
  import opened Pins
  import opened Tlabs
  import opened Runs

  // -- Collections ----------------------------------------------------------

  /** Every mutator's slabs are flushed before a collection. */
  method FlushAll(h: PageHeap, ms: Mutators)
    requires Going(h, ms)
    modifies ms`tlabs
    ensures Going(h, ms) && (old(RunOk(h, ms)) ==> RunOk(h, ms)) && (old(Wrecked(h, ms)) ==> Wrecked(h, ms))
    ensures ms.tlabs.Keys == old(ms.tlabs).Keys && forall s | s in ms.tlabs :: ms.tlabs[s] == EMPTY_TLAB
  {
    hide Starts, GeoOk, MemoryOk, PagesOk, RegionsOk, WellPaired, CardsClean, SystemOk, HeapOk, NoLarge, CountsOk,
      BlocksOf, PassReady, CardsCover;
    for m := 0 to ms.count
      invariant Going(h, ms) && ms.tlabs.Keys == old(ms.tlabs).Keys
      invariant forall s | s in ms.tlabs && s.0 < m :: ms.tlabs[s] == EMPTY_TLAB
    {
      ms.Flush(m);
    }
  }

  /** With their slabs flushed, the mutators may go on with whatever a collection left. */
  lemma Resumed(h: PageHeap, ms: Mutators)
    requires ms.heap == h && CycleReady(h) && h.pinnedCells == {} && |ms.refills| == ms.count
    requires (forall s :: s in ms.tlabs <==> s.0 < ms.count && s.1 < 6)
    requires (forall s | s in ms.tlabs :: ms.tlabs[s] == EMPTY_TLAB)
    requires Shaped(h.Geo(), h.V()) && ms.objects == BlocksOf(h.Geo(), h.V()) && CountsOk(h.V(), h.explicitPins)
    requires CardsCover(h.Geo(), h.V(), h.cards[..]) && !h.poisoned
    ensures RunOk(h, ms)
  {
    hide Starts, GeoOk, MemoryOk, PagesOk, RegionsOk, WellPaired, CardsClean, SystemOk, HeapOk, NoLarge, CountsOk,
      BlocksOf, PinsOk, CardsCover;
    ReadyToAllocate(h.Geo(), h.V());
    DropKeeps(h.V(), map[], ms.objects, ms.tlabs);
  }

  /** The generations in which the words of the stacks pin: those the collection moves. */
  function PinGens(cmd: Command): seq<Generation> { if cmd.Full? then [G0, G1, Tenured] else [G0, G1] }

  /** The cells pinned through a collection. */
  function Held(g: Geometry, v: View, pins: map<nat, nat>, cmd: Command): set<nat>
    requires cmd.Collects()
  {
    pins.Keys + Conserved(g, v, cmd.words, GensOf(PinGens(cmd)))
  }

  lemma StillCycleReady(h: PageHeap, v: View)
    requires h.Inv() && PinBytesOnly(v, h.V()) && HeapOk(h.Geo(), v) && NoLarge(v) && h.liveTarget == None
    requires PinsOk(h.V(), h.pinnedCells) && CountsOk(v, h.explicitPins)
    ensures CycleReady(h)
  {
    hide Starts, PinsOk, MemoryOk, PagesOk, RegionsOk, HeapOk, NoLarge, GeoOk, PinBytesOnly, WellPaired, CardsClean;
    PinsStillObjects(v, h.V(), h.explicitPins);
    PassAfterPins(h, v, G0);
  }

  lemma PinsStillObjects(v: View, w: View, pins: map<nat, nat>)
    requires PinBytesOnly(v, w) && CountsOk(v, pins)
    ensures (forall s | s in pins :: IsObj(v, s)) && CountsOk(w, pins)
  {
  }

  /** What a collection did, seen from before the conservative pins were recorded. */
  lemma CollectedFrom(g: Geometry, v: View, u: View, w: View, phi: map<nat, nat>, pins: set<nat>)
    requires GeoOk(g) && PinBytesOnly(v, u) && Shaped(g, v) && Relocated(g, u, w, phi, pins)
    requires PinsFollow(g, u, w, phi, pins)
    ensures Relocated(g, v, w, phi, pins) && PinsFollow(g, v, w, phi, pins)
  {
    FollowSansPins(g, v, u, w, phi, pins);
    forall s | s in phi ensures SameShape(g, v, w, s, phi[s]) { ShapeSansPins(g, v, u, w, s, phi[s]); }
    hide SameShape;
  }

  lemma PinsRemain(g: Geometry, v: View, w: View, phi: map<nat, nat>, pins: set<nat>, counts: map<nat, nat>)
    requires Relocated(g, v, w, phi, pins) && CountsOk(v, counts) && counts.Keys <= pins
    ensures CountsOk(w, counts)
  {
    hide SameShape;
    forall c | c in counts ensures IsObj(w, c) {
      assert c in counts.Keys && c in phi && phi[c] == c;
      ShapeFit(g, v, w, c, c);
    }
  }

  lemma CollectedParts(h: PageHeap, v: View, roots0: seq<u64>, roots: seq<u64>, phi: map<nat, nat>, pins: set<nat>,
                       to: Generation -> Generation, good: bool, reach: Reach)
    requires Collected(h, v, roots0, roots, phi, pins, to, good, reach)
    ensures CycleReady(h) && h.pinnedCells == {} && Shaped(h.Geo(), h.V()) && GeoOk(h.Geo()) && Shaped(h.Geo(), v)
    ensures Relocated(h.Geo(), v, h.V(), phi, pins) && InRange(h.Geo(), phi) && PinsFollow(h.Geo(), v, h.V(), phi, pins)
    ensures GensBy(v, h.V(), phi, to) && RootsHeld(h.Geo(), v, phi, roots0, roots)
    ensures ReachHeld(h.Geo(), v, h.V(), phi, to, roots0, roots, pins, reach)
    ensures OldsHeld(h.Geo(), v, h.V(), phi, to, roots0, roots, pins, reach)
    ensures CardsTrue(h.Geo(), h.V(), h.cards[..]) && CardsCover(h.Geo(), h.V(), h.cards[..])
  {
    hide Starts, GeoOk, CycleReady, GensBy, PinsFollow, GraphKept, GoodHeap, CardsTrue, CardsCover, NoPinBytes,
      WellPaired, SameShape, RootsHeld, ReachHeld, OldsHeld;
  }

  function CountersAfter(cmd: Command, n: Counters): Counters {
    if cmd.Minor? then Counters(PlanMinor(n.minors, n.promotes).minors, PlanMinor(n.minors, n.promotes).promotes)
    else if cmd.Collects() then Counters(0, 0) else n
  }

  /** Where a collection takes the objects of each generation. */
  function GoesTo(cmd: Command, n: Counters): Generation -> Generation {
    if cmd.Minor? then MinorGen(PlanMinor(n.minors, n.promotes)) else if cmd.Major? then MajorGen else FullGen
  }

  lemma GensSansPins(v: View, u: View, w: View, phi: map<nat, nat>, to: Generation -> Generation)
    requires PinBytesOnly(v, u) && GensBy(u, w, phi, to)
    ensures GensBy(v, w, phi, to)
  {
  }

  /** What a collection is sure to keep, by what may be counted beforehand, of what the roots and the pins
      reach within a generation: all of it, but where the promotion of the generation takes more than one chunk;
      and which generations stay where they are. */
  function SureReach(cmd: Command, n: Counters, descs: seq<PageDesc>, pins: set<nat>): Reach {
    var one, plan := Where(OneChunk(descs, pins, G0), G0), PlanMinor(n.minors, n.promotes);
    match cmd
    case Minor(_) =>
      if !plan.promoteG0 then Reach(YOUNG_AND_OLD, YOUNG_AND_OLD, {G1, Tenured}, true)
      else if !plan.promoteG1 then Reach(YOUNG_AND_OLD, {G1, Tenured} + one, {G1, Tenured}, true)
      else Reach({G1, Tenured} + one, {Tenured}, {Tenured}, true)
    case Major(_) => Reach(YOUNG_AND_OLD, {G0, Tenured} + Where(OneChunk(descs, pins, G1), G1), {Tenured}, true)
    case _ => Reach({Tenured}, {Tenured}, {}, true)
  }

  predicate Within(a: Reach, b: Reach) {
    a.kept <= b.kept && a.carried <= b.carried && a.still <= b.still && (a.watched ==> b.watched)
  }

  lemma FewerHeld(g: Geometry, v: View, w: View, phi: map<nat, nat>, to: Generation -> Generation, roots0: seq<u64>,
                  roots: seq<u64>, pins: set<nat>, fewer: Reach, reach: Reach)
    requires Shaped(g, v) && Shaped(g, w) && ReachHeld(g, v, w, phi, to, roots0, roots, pins, reach)
    requires Within(fewer, reach)
    ensures ReachHeld(g, v, w, phi, to, roots0, roots, pins, fewer)
  {
    hide KeepsReach, CarriesReach;
  }

  lemma FewerOlds(g: Geometry, v: View, w: View, phi: map<nat, nat>, to: Generation -> Generation, roots0: seq<u64>,
                  roots: seq<u64>, pins: set<nat>, fewer: Reach, reach: Reach)
    requires GeoOk(g) && InRange(g, phi) && Shaped(g, v) && Shaped(g, w)
    requires OldsHeld(g, v, w, phi, to, roots0, roots, pins, reach) && Within(fewer, reach)
    ensures OldsHeld(g, v, w, phi, to, roots0, roots, pins, fewer)
  {
    hide GeoOk, RootsHeld, ReachHeld, OldOne;
    forall s: nat | OfGens(v, fewer.still, s) ensures s in phi && phi[s] == s { assert OfGens(v, reach.still, s); }
    if fewer.watched {
      forall fields | OldOnes(g, v, fewer.still, fields)
        ensures HeldWith(g, v, w, phi, to, roots0, roots, pins, fewer, fields) {
        forall k | 0 <= k < |fields| ensures OldOne(g, v, reach.still, fields[k]) {
          MoreOlds(g, v, fewer.still, reach.still, fields[k]);
        }
        assert HeldWith(g, v, w, phi, to, roots0, roots, pins, reach, fields);
        FewerHeld(g, v, w, phi, to, roots0 + WordsIn(v, fields), roots + WordsIn(w, fields), pins, fewer, reach);
      }
    }
  }

  lemma CoverSansPins(g: Geometry, v: View, u: View, cards: seq<bool>)
    requires PinBytesOnly(v, u) && Shaped(g, v) && Shaped(g, u) && CardsCover(g, v, cards)
    ensures CardsCover(g, u, cards)
  {
    forall s: nat | s < |u.starts| && IsObj(u, s)
      ensures s + SizeOf(g, u, s) <= |u.cells| && ObjCarded(g, u, cards, s) {
      assert IsObj(v, s) && ObjCarded(g, v, cards, s);
      forall i: nat | i < SizeOf(g, u, s) && IsPtrOff(g, u, s, i) && Crosses(g, u, s, Field(u, s, i))
        ensures (s + i) / CARD_CELLS < |cards| && cards[(s + i) / CARD_CELLS] {
        assert SizeOf(g, v, s) == SizeOf(g, u, s) && IsPtrOff(g, v, s, i) && Crosses(g, v, s, Field(v, s, i));
      }
    }
  }

  lemma OneSansPins(v: View, u: View, pins: set<nat>, from: Generation)
    requires PinBytesOnly(v, u)
    ensures OneChunk(u.descs, pins, from) == OneChunk(v.descs, pins, from)
  {
    SamePagesIn(u.descs, v.descs, from);
    SamePagesIn(u.descs, v.descs, Free);
    assert PinnedPages(u.descs, pins, from) == PinnedPages(v.descs, pins, from);
    hide PagesIn, CountGen, PinnedPages;
  }

  /** A first pass that fits one chunk is straight. */
  lemma SureFirst(g: Geometry, v: View, u: View, regions: seq<AllocRegion>, shelf: seq<nat>, live: set<nat>,
                  pins: set<nat>, from: Generation, dest: Generation, first: Plan)
    requires HasRegion(dest, Cons) && |regions| == 6 && PinBytesOnly(v, u)
    requires first == PlanPass(g, u, regions, shelf, live, pins, from, dest)
    ensures OneChunk(v.descs, pins, from) ==> first.straight
  {
    hide OneChunk, PlanPass, PackChunk;
    OneSansPins(v, u, pins, from);
    if OneChunk(v.descs, pins, from) { OnePlan(g, u, regions, shelf, live, pins, from, dest); }
  }

  // -- How a collection ends ------------------------------------------------

  /** How a collection ends: done; refused as the heap is poisoned; out of pages half way, which poisons the heap;
      or in a panic. */
  datatype Ending = Complete | HeapPoisoned | MidEvacOom | Panic

  /** What a collection starts from: the heap, the allocator's tables, the cards, the roots and the counters. */
  datatype Outset = Outset(v: View, regions: seq<AllocRegion>, shelf: seq<nat>, cards: seq<bool>, roots: seq<u64>,
                           counters: Counters)

  function FirstFrom(cmd: Command): Generation { if cmd.Major? then G1 else G0 }

  function FirstDest(cmd: Command, n: Counters): Generation {
    if cmd.Major? then Tenured else if cmd.Full? || PlanMinor(n.minors, n.promotes).promoteG0 then G1 else G0
  }

  /** The plan of its first pass. */
  ghost function FirstPass(g: Geometry, a: Outset, cmd: Command, pins: set<nat>): Plan
    requires Shaped(g, a.v) && |a.regions| == 6
  {
    PlanPass(g, a.v, a.regions, a.shelf,
             ToKeep(g, a.v, a.cards, a.roots, Some(a.v.descs), FirstFrom(cmd), pins), pins, FirstFrom(cmd),
             FirstDest(cmd, a.counters))
  }

  /** The first pass is the only one. */
  predicate OnePass(cmd: Command, n: Counters) { cmd.Minor? && !PlanMinor(n.minors, n.promotes).promoteG1 }

  /** The first pass has come to its end as planned, and a later one is not to, by its plan, for want of pages. */
  ghost predicate LaterFails(g: Geometry, a: Outset, cmd: Command, pins: set<nat>)
    requires Shaped(g, a.v) && |a.regions| == 6
  {
    exists mid: Halfway, late: Halfway :: LaterFailsAt(g, a, cmd, pins, mid, late)
  }

  ghost predicate LaterFailsAt(g: Geometry, a: Outset, cmd: Command, pins: set<nat>, mid: Halfway, late: Halfway)
    requires Shaped(g, a.v) && |a.regions| == 6
  {
    && PassedOn(g, a.v, mid, pins, FirstFrom(cmd), FirstDest(cmd, a.counters), FirstPass(g, a, cmd, pins))
    && match cmd
       case Minor(_) => !NextPlan(g, mid, Some(a.v.descs), G1, Tenured, pins).affords
       case Major(_) => !NextPlan(g, mid, Some(mid.view.descs), G0, G0, pins).affords
       case _ =>
         var second := NextPlan(g, mid, Some(mid.view.descs), G1, Tenured, pins);
         !second.affords || (PassedOn(g, mid.view, late, pins, G1, Tenured, second)
                             && !NextPlan(g, late, None, Tenured, Tenured, pins).affords)
  }

  /** The second pass of a cascade has come to a marker that it cannot take for a header. */
  ghost predicate Stumbles(g: Geometry, a: Outset, cmd: Command, pins: set<nat>)
    requires Shaped(g, a.v) && |a.regions| == 6
  {
    exists mid: Halfway, second: Plan ::
      && HalfwayOk(g, a.v, a.cards, a.roots, mid, pins, a.v.descs, FirstPass(g, a, cmd, pins), second)
      && ScanVerdict(g, a.v, mid, pins, FirstPass(g, a, cmd, pins), second, Misread)
  }

  /** How a collection that is not refused ends, `u` being the heap with the words of the stacks pinned: it completes
      if there are pages enough for its passes, by their plans, and stops half way if there are not;
      only the second pass of a cascade may stumble. */
  ghost predicate EndsAt(g: Geometry, a: Outset, u: View, cmd: Command, pins: set<nat>, ending: Ending)
    requires Shaped(g, a.v) && Shaped(g, u) && |a.regions| == 6
  {
    var first, b := FirstPass(g, a, cmd, pins), a.(v := u);
    && !ending.HeapPoisoned? && (ending.Complete? ==> first.affords)
    && (ending.MidEvacOom? ==>
          !cmd.Full? && (!first.affords || (!OnePass(cmd, a.counters) && LaterFails(g, b, cmd, pins))))
    && (ending.Panic? ==>
          || (cmd.Full? && (!first.affords || LaterFails(g, b, cmd, pins)))
          || (cmd.Minor? && !OnePass(cmd, a.counters) && first.affords && Stumbles(g, b, cmd, pins)))
    && (Ample(a.v, pins) ==> ending.Complete?)
  }

  ghost predicate Ends(g: Geometry, a: Outset, cmd: Command, pins: set<nat>, ending: Ending)
    requires Shaped(g, a.v) && |a.regions| == 6
  {
    exists u: View :: PinBytesOnly(a.v, u) && Shaped(g, u) && EndsAt(g, a, u, cmd, pins, ending)
  }

  /** A full collection never reports a lack of pages, and a major one never panics. */
  lemma EndsWays(g: Geometry, a: Outset, cmd: Command, pins: set<nat>, ending: Ending)
    requires Shaped(g, a.v) && |a.regions| == 6 && Ends(g, a, cmd, pins, ending)
    ensures (ending.MidEvacOom? ==> !cmd.Full?) && (ending.Panic? ==>
        cmd.Full? || (cmd.Minor? && !OnePass(cmd, a.counters)))
  {
    hide LaterFails, Stumbles, Ample, FirstPass, PinBytesOnly;
  }

  /** With one pass there are two ways. */
  lemma EndsOnePass(g: Geometry, a: Outset, cmd: Command, pins: set<nat>, ending: Ending)
    requires Shaped(g, a.v) && |a.regions| == 6 && OnePass(cmd, a.counters) && Ends(g, a, cmd, pins, ending)
    ensures ending == if FirstPass(g, a, cmd, pins).affords then Complete else MidEvacOom
  {
    hide LaterFails, Stumbles, Ample, FirstPass, PinBytesOnly;
  }

  /** Pin bytes of cells that are pinned anyway change neither what the first pass keeps nor its plan. */
  lemma SameFirst(g: Geometry, a: Outset, u: View, cmd: Command, pins: set<nat>, cells: set<nat>)
    requires Shaped(g, a.v) && Shaped(g, u) && |a.regions| == 6 && PinBytesOnly(a.v, u) && PinnedBy(a.v, u, cells)
    requires cells <= pins
    ensures FirstPass(g, a.(v := u), cmd, pins) == FirstPass(g, a, cmd, pins)
  {
    hide PlanPass, ToKeep, PinBytesOnly;
    var from, scan := FirstFrom(cmd), Some(a.v.descs);
    var live := ToKeep(g, a.v, a.cards, a.roots, scan, from, pins);
    SameKeep(g, a.v, u, a.cards, a.roots, from, pins);
    KeptIsObj(g, a.v, a.cards, a.roots, scan, from, pins);
    SamePlan(g, a.v, u, a.regions, a.shelf, live, pins, cells, from, FirstDest(cmd, a.counters));
  }

  lemma SameKeep(g: Geometry, v: View, u: View, cards: seq<bool>, roots: seq<u64>, from: Generation, pins: set<nat>)
    requires Shaped(g, v) && Shaped(g, u) && PinBytesOnly(v, u)
    ensures ToKeep(g, u, cards, roots, Some(u.descs), from, pins) ==
            ToKeep(g, v, cards, roots, Some(v.descs), from, pins)
  {
    hide EvacSeeds, CardRoots, KeptObjs;
    SameScan(g, u, cards, v.descs, u.descs, from);
    SameSeeds(g, v, u, from, roots, cards, Some(v.descs), pins);
    SameKept(g, v, u, from, EvacSeeds(g, v, from, roots, CardRoots(g, v, cards, Some(v.descs), from), pins));
  }

  lemma SameKept(g: Geometry, v: View, u: View, from: Generation, seeds: set<nat>)
    requires Shaped(g, v) && Shaped(g, u) && PinBytesOnly(v, u)
    ensures KeptObjs(g, u, from, seeds) == KeptObjs(g, v, from, seeds)
  {
    hide Reachable;
    assert AllObjs(u) == AllObjs(v) && forall s | s in AllObjs(v) :: GenAt(u, s) == GenAt(v, s);
    hide Reachable, AllObjs, PinBytesOnly, GenAt, Shaped;
    forall s: nat ensures Reachable(g, u, from, seeds, s) <==> Reachable(g, v, from, seeds, s) {
      ReachEither(g, v, u, from, seeds, s);
    }
  }

  lemma ReachEither(g: Geometry, v: View, u: View, from: Generation, seeds: set<nat>, s: nat)
    requires PinBytesOnly(v, u)
    ensures Reachable(g, u, from, seeds, s) <==> Reachable(g, v, from, seeds, s)
  {
    hide Reachable;
    PinBytesBack(v, u);
    ReachSansPins(g, v, u, from, seeds, s);
    ReachSansPins(g, u, v, from, seeds, s);
  }

  lemma PinBytesBack(v: View, u: View)
    requires PinBytesOnly(v, u)
    ensures PinBytesOnly(u, v)
  {
  }

  lemma SameScan(g: Geometry, v: View, cards: seq<bool>, a: seq<PageDesc>, b: seq<PageDesc>, from: Generation)
    requires Shaped(g, v) && |a| == |b| && forall p | 0 <= p < |a| :: b[p].generation == a[p].generation
    ensures CardRoots(g, v, cards, Some(b), from) == CardRoots(g, v, cards, Some(a), from)
  {
    forall k: nat ensures CardScanned(cards, b, from, k) == CardScanned(cards, a, from, k) {}
    hide CardScanned, CardVisits;
  }

  /** Two heaps that differ in pin bytes of pinned cells have the same plan. */
  lemma SamePlan(g: Geometry, v: View, u: View, regions: seq<AllocRegion>, shelf: seq<nat>, live: set<nat>,
                 pins: set<nat>, cells: set<nat>, from: Generation, dest: Generation)
    requires Shaped(g, v) && Shaped(g, u) && PinBytesOnly(v, u) && PinnedBy(v, u, cells) && cells <= pins
    requires HasRegion(dest, Cons) && |regions| == 6 && forall s | s in live :: s < |v.starts|
    ensures PlanPass(g, u, regions, shelf, live, pins, from, dest) ==
            PlanPass(g, v, regions, shelf, live, pins, from, dest)
  {
    hide PlanPass;
    var w := v.(descs := seq(|v.descs|, p requires 0 <= p < |v.descs| =>
        if p in PagesOf(pins) && !v.descs[p].HasPins() then v.descs[p].(pinByte := 1) else v.descs[p]));
    AllPinned(v, u, w, pins, cells);
    PlanBefore(g, v, w, regions, shelf, live, pins, from, dest);
    PlanBefore(g, u, w, regions, shelf, live, pins, from, dest);
  }

  lemma AllPinned(v: View, u: View, w: View, pins: set<nat>, cells: set<nat>)
    requires PinBytesOnly(v, u) && PinnedBy(v, u, cells) && cells <= pins
    requires w == v.(descs := seq(|v.descs|, p requires 0 <= p < |v.descs| =>
               if p in PagesOf(pins) && !v.descs[p].HasPins() then v.descs[p].(pinByte := 1) else v.descs[p]))
    ensures PinBytesOnly(v, w) && PinnedBy(v, w, pins) && PinBytesOnly(u, w) && PinnedBy(u, w, pins)
  {
    assert PagesOf(cells) <= PagesOf(pins);
    hide PagesOf;
  }

  /** What a collection of a heap has done. */
  ghost predicate Cycled(g: Geometry, v: View, w: View, cards: seq<bool>, roots0: seq<u64>, roots: seq<u64>,
                         phi: map<nat, nat>, pins: set<nat>, to: Generation -> Generation, reach: Reach)
    requires Shaped(g, v) && Shaped(g, w)
  {
    && Relocated(g, v, w, phi, pins) && GeoOk(g) && InRange(g, phi) && PinsFollow(g, v, w, phi, pins)
    && GensBy(v, w, phi, to) && RootsHeld(g, v, phi, roots0, roots)
    && ReachHeld(g, v, w, phi, to, roots0, roots, pins, reach)
    && OldsHeld(g, v, w, phi, to, roots0, roots, pins, reach) && CardsTrue(g, w, cards)
  }

  /** Seen from before the words of the stacks were pinned. */
  lemma CycledFrom(g: Geometry, v: View, u: View, w: View, cards: seq<bool>, roots0: seq<u64>, roots: seq<u64>,
                   phi: map<nat, nat>, pins: set<nat>, to: Generation -> Generation, reach: Reach)
    requires PinBytesOnly(v, u) && Shaped(g, v) && Shaped(g, u) && Shaped(g, w)
    requires Cycled(g, u, w, cards, roots0, roots, phi, pins, to, reach)
    ensures Cycled(g, v, w, cards, roots0, roots, phi, pins, to, reach)
    ensures Relocated(g, v, w, phi, pins)
  {
    hide Relocated, GensBy, ReachHeld, OldsHeld, CardsTrue, PinsFollow, RootHeld;
    CollectedFrom(g, v, u, w, phi, pins);
    GensSansPins(v, u, w, phi, to);
    ReachSansPinsBefore(g, v, u, w, phi, to, roots0, roots, pins, reach);
    OldsSansPinsBefore(g, v, u, w, phi, to, roots0, roots, pins, reach);
    RootsSansPins(g, v, u, phi, roots0, roots);
  }

  lemma MinorIsSure(cmd: Command, n: Counters, descs: seq<PageDesc>, pins: set<nat>, first: Plan, second: Plan)
    requires cmd.Minor?
    requires OneChunk(descs, pins, G0) && PlanMinor(n.minors, n.promotes).promoteG0 ==> first.straight
    ensures Within(SureReach(cmd, n, descs, pins), MinorReach(PlanMinor(n.minors, n.promotes), first, second, true))
  {
    hide OneChunk;
  }

  /** The collection itself, seen from after the words of the stacks were pinned. */
  method CollectPinned(h: PageHeap, roots: array<u64>, cmd: Command, ghost v: View, ghost pins: set<nat>)
    returns (ending: Ending, ghost phi: map<nat, nat>)
    requires CycleReady(h) && RootsApart(h, roots) && cmd.Collects() && !h.poisoned
    requires PinBytesOnly(v, h.V()) && h.pinnedCells + h.explicitPins.Keys == pins
    requires Shaped(h.Geo(), h.V()) && CardsCover(h.Geo(), h.V(), h.cards[..])
    modifies h`descs, h`regions, h`bytesAlloc, h`committed, h`freeList, h`highWater, h`pinnedCells, h`liveCounts,
      h`liveTarget, h`minorsSinceG0Promote, h`g0PromotesSinceG1Promote, h.cells, h.startTable.bits, h.markTable.bits,
      h.cards, roots
    ensures h.Valid() && (!ending.Complete? ==> phi == map[])
    ensures Shaped(h.Geo(), old(h.V())) && |old(h.regions)| == 6
    ensures EndsAt(h.Geo(), old(OutsetOf(h, roots)), old(h.V()), cmd, pins, ending)
    ensures ending.Complete? ==> CycleReady(h) && h.pinnedCells == {} && Shaped(h.Geo(), h.V())
                                 && CardsCover(h.Geo(), h.V(), h.cards[..])
    ensures ending.Complete? ==>
              Cycled(h.Geo(), old(h.V()), h.V(), h.cards[..], old(roots[..]), roots[..], phi, pins,
                GoesTo(cmd, old(CountersOf(h))), SureReach(cmd, old(CountersOf(h)), v.descs, pins))
    ensures ending.Complete? ==> CountersOf(h) == CountersAfter(cmd, old(CountersOf(h)))
    ensures (ending.Complete? && cmd.Minor?
             && PlanMinor(old(h.minorsSinceG0Promote), old(h.g0PromotesSinceG1Promote)).promoteG0) ==>
              NoPages(h.descs, G0)
  {
    hide Starts, GeoOk, MemoryOk, PagesOk, RegionsOk, WellPaired, CardsClean, SystemOk, HeapOk, NoLarge, CountsOk,
      BlocksOf, PassReady, Collected, PinBytesOnly, PinsOk, Relocated, PinsFollow, Conserved, PlanPass, HalfwayOk,
      PassedOn, ScanVerdict, Foretellable, CascadeForetold, GoodHeap, OneRest, ToKeep, Ample, NoPages, AllReachedFrom,
      CycleReady, GensBy, RootsHeld, ReachHeld, OldsHeld, CardsCover, CardsTrue, OneChunk, SureReach, MinorReach,
      MajorReach, FullReach, Shelf, Within, NextPlan;
    phi := map[];
    ghost var u, roots0, counters, a := h.V(), roots[..], CountersOf(h), OutsetOf(h, roots);
    ghost var good, first, second, third, mid, late, reach, live;
    PinnedTables(h);
    var outcome;
    match cmd {
      case Minor(_) =>
        ghost var plan;
        live := ToKeep(h.Geo(), u, h.cards[..], roots0, Some(h.descs), G0, pins);
        outcome, plan, phi, good, first, second, mid := CollectMinor(h, roots);
        assert first == FirstPass(h.Geo(), a, cmd, pins);
        MinorEnds(h.Geo(), a, cmd, pins, outcome, plan, first, second, mid);
        if !outcome.Done? { return if outcome.Exhausted? then MidEvacOom else Panic, map[]; }
        SureFirst(h.Geo(), v, u, a.regions, a.shelf, live, pins, G0, if plan.promoteG0 then G1 else G0, first);
        MinorIsSure(cmd, counters, v.descs, pins, first, second);
        reach := MinorReach(plan, first, second, true);
      case Major(_) =>
        live := ToKeep(h.Geo(), u, h.cards[..], roots0, Some(h.descs), G1, pins);
        outcome, phi, good, first, second, mid := CollectMajor(h, roots);
        assert first == FirstPass(h.Geo(), a, cmd, pins);
        if !outcome.Done? {
          assert first.affords ==> LaterFailsAt(h.Geo(), a, cmd, pins, mid, mid);
          return MidEvacOom, map[];
        }
        SureFirst(h.Geo(), v, u, a.regions, a.shelf, live, pins, G1, Tenured, first);
        reach := MajorReach(first, true);
        MajorIsSure(cmd, counters, v.descs, pins, first);
      case Full(_) =>
        outcome, phi, good, first, second, mid, third, late := CollectFull(h, roots);
        assert first == FirstPass(h.Geo(), a, cmd, pins);
        FullEnds(h.Geo(), a, cmd, pins, h.poisoned, outcome, first, second, mid, third, late);
        if !outcome.Done? { return Panic, map[]; }
        reach := FullReach(first, second, true);
        FullIsSure(cmd, counters, v.descs, pins, first, second);
    }
    CollectedParts(h, u, roots0, roots[..], phi, pins, GoesTo(cmd, counters), good, reach);
    FewerHeld(h.Geo(), u, h.V(), phi, GoesTo(cmd, counters), roots0, roots[..], pins,
      SureReach(cmd, counters, v.descs, pins), reach);
    FewerOlds(h.Geo(), u, h.V(), phi, GoesTo(cmd, counters), roots0, roots[..], pins,
      SureReach(cmd, counters, v.descs, pins), reach);
    ending := Complete;
  }

  ghost function OutsetOf(h: PageHeap, roots: array<u64>): Outset
    reads h, h.cells, h.startTable.bits, h.cards, roots
  {
    Outset(h.V(), h.regions, Shelf(h.descs, h.freeList), h.cards[..], roots[..], CountersOf(h))
  }

  /** Why a minor has stopped. */
  lemma MinorEnds(g: Geometry, a: Outset, cmd: Command, pins: set<nat>, outcome: Outcome, plan: MinorPlan, first: Plan,
                  second: Plan, mid: Halfway)
    requires Shaped(g, a.v) && |a.regions| == 6 && cmd.Minor? && first == FirstPass(g, a, cmd, pins)
    requires plan == PlanMinor(a.counters.minors, a.counters.promotes)
    requires outcome.Exhausted? ==>
               !first.affords
               || (plan.promoteG1 && !second.affords
                   && HalfwayOk(g, a.v, a.cards, a.roots, mid, pins, a.v.descs, first, second))
    requires outcome.Misread? ==> plan.promoteG1
    requires plan.promoteG1 && !outcome.Exhausted? ==>
               && HalfwayOk(g, a.v, a.cards, a.roots, mid, pins, a.v.descs, first, second)
               && ScanVerdict(g, a.v, mid, pins, first, second, outcome)
    ensures outcome.Exhausted? ==> !first.affords || (!OnePass(cmd, a.counters) && LaterFails(g, a, cmd, pins))
    ensures outcome.Misread? ==> !OnePass(cmd, a.counters) && first.affords && Stumbles(g, a, cmd, pins)
  {
    hide PlanPass, ToKeep, PassResult, AsPlanned, ScanVerdict, GoodHeap, HeapOk, NoLarge, NoPinBytes, GraphKept;
    if outcome.Exhausted? && first.affords {
      assert PassedOn(g, a.v, mid, pins, G0, G1, first);
      assert LaterFailsAt(g, a, cmd, pins, mid, mid);
    }
    if outcome.Misread? { HalfwayPlanned(g, a.v, a.cards, a.roots, mid, pins, a.v.descs, first, second); }
  }

  /** Why a full collection has stopped. */
  lemma FullEnds(g: Geometry, a: Outset, cmd: Command, pins: set<nat>, poisoned: bool, outcome: Outcome, first: Plan,
                 second: Plan, mid: Halfway, third: Plan, late: Halfway)
    requires Shaped(g, a.v) && |a.regions| == 6 && cmd.Full? && first == FirstPass(g, a, cmd, pins) && !poisoned
    requires outcome.Exhausted? ==> !first.affords || !second.affords || !third.affords
    requires outcome.Exhausted? && first.affords ==>
               HalfwayOk(g, a.v, a.cards, a.roots, mid, pins, mid.view.descs, first, second)
    requires outcome.Exhausted? && first.affords && second.affords ==>
               && PassedOn(g, mid.view, late, pins, G1, Tenured, second)
               && third == NextPlan(g, late, None, Tenured, Tenured, pins)
    ensures outcome.Exhausted? ==> !first.affords || LaterFails(g, a, cmd, pins)
  {
    hide PlanPass, ToKeep, PassResult, AsPlanned, GoodHeap, HeapOk, NoLarge, NoPinBytes, GraphKept;
    if outcome.Exhausted? && first.affords {
      assert PassedOn(g, a.v, mid, pins, G0, G1, first);
      assert LaterFailsAt(g, a, cmd, pins, mid, late);
    }
  }

  lemma MajorIsSure(cmd: Command, n: Counters, descs: seq<PageDesc>, pins: set<nat>, first: Plan)
    requires cmd.Major? && (OneChunk(descs, pins, G1) ==> first.straight)
    ensures Within(SureReach(cmd, n, descs, pins), MajorReach(first, true))
  {
    hide OneChunk;
  }

  lemma FullIsSure(cmd: Command, n: Counters, descs: seq<PageDesc>, pins: set<nat>, first: Plan, second: Plan)
    requires cmd.Full?
    ensures Within(SureReach(cmd, n, descs, pins), FullReach(first, second, true))
  {
    hide OneChunk;
  }

  lemma PinnedTables(h: PageHeap)
    requires CycleReady(h)
    ensures |h.regions| == 6 && Shaped(h.Geo(), h.V()) && |h.descs| == h.nPages && h.Valid()
  {
    hide Starts, GeoOk, MemoryOk, PagesOk, RegionsOk, WellPaired, CardsClean, HeapOk, NoLarge, PinsOk;
  }

  lemma RunParts(h: PageHeap, ms: Mutators)
    requires RunOk(h, ms)
    ensures ms.heap == h && CountsOk(h.V(), h.explicitPins) && PinsOk(h.V(), h.pinnedCells) && h.pinnedCells == {}
    ensures Counted(h.explicitPins) && ms.Slots()
    ensures |ms.refills| == ms.count && (forall s :: s in ms.tlabs <==> s.0 < ms.count && s.1 < 6)
    ensures Shaped(h.Geo(), h.V())
  {
    hide Starts, GeoOk, MemoryOk, PagesOk, RegionsOk, WellPaired, CardsClean, SystemOk, HeapOk, NoLarge, BlocksOf,
      CardsCover;
  }

  /** With the slabs flushed: the words of the stacks are pinned, then comes the collection. One that runs out of
      pages half way poisons the heap. */
  method CollectFlushed(h: PageHeap, ms: Mutators, roots: array<u64>, cmd: Command)
    returns (ending: Ending, ghost phi: map<nat, nat>)
    requires RunOk(h, ms) && RootsApart(h, roots) && cmd.Collects()
    requires forall s | s in ms.tlabs :: ms.tlabs[s] == EMPTY_TLAB
    modifies ms`objects, h`descs, h`regions, h`bytesAlloc, h`committed, h`freeList, h`highWater,
      h`pinnedCells, h`liveCounts, h`liveTarget, h`minorsSinceG0Promote, h`g0PromotesSinceG1Promote, h`poisoned,
      h.cells, h.startTable.bits, h.markTable.bits, h.cards, roots
    ensures !ending.HeapPoisoned? && if ending.Complete? then RunOk(h, ms) else phi == map[]
    ensures (ending.MidEvacOom? ==> Wrecked(h, ms)) && h.poisoned == ending.MidEvacOom?
    ensures Shaped(h.Geo(), old(h.V())) && |old(h.regions)| == 6 && (ending.Complete? ==> Shaped(h.Geo(), h.V()))
    ensures Ends(h.Geo(), old(OutsetOf(h, roots)), cmd, Held(h.Geo(), old(h.V()), h.explicitPins, cmd), ending)
    ensures ending.Complete? ==>
              var pins := Held(h.Geo(), old(h.V()), h.explicitPins, cmd);
              Cycled(h.Geo(), old(h.V()), h.V(), h.cards[..], old(roots[..]), roots[..], phi, pins,
                GoesTo(cmd, old(CountersOf(h))), SureReach(cmd, old(CountersOf(h)), old(h.descs), pins))
    ensures ending.Complete? ==> CountersOf(h) == CountersAfter(cmd, old(CountersOf(h)))
    ensures (ending.Complete? && cmd.Minor?
             && PlanMinor(old(h.minorsSinceG0Promote), old(h.g0PromotesSinceG1Promote)).promoteG0) ==>
              NoPages(h.descs, G0)
  {
    hide Starts, GeoOk, MemoryOk, PagesOk, RegionsOk, WellPaired, CardsClean, SystemOk, HeapOk, NoLarge, CountsOk,
      BlocksOf, PassReady, Collected, PinBytesOnly, PinsOk, Relocated, PinsFollow, Conserved, PlanPass, HalfwayOk,
      PassedOn, ScanVerdict, Foretellable, CascadeForetold, GoodHeap, OneRest, ToKeep, Ample, NoPages, AllReachedFrom,
      CycleReady, GensBy, RootsHeld, ReachHeld, OldsHeld, CardsCover, CardsTrue, OneChunk, RunOk, Cycled, SureReach,
      GoesTo, CountersAfter, PlanMinor, EndsAt, Ends, Shelf, PinnedBy;
    ghost var counters := CountersOf(h);
    RunReady(h, ms);
    ghost var g, v, pins := h.Geo(), h.V(), Held(h.Geo(), h.V(), h.explicitPins, cmd);
    RunParts(h, ms);
    PinAll(h, cmd.words, PinGens(cmd));
    StillCycleReady(h, v);
    ghost var u, a := h.V(), old(OutsetOf(h, roots));
    CoverSansPins(g, v, u, h.cards[..]);
    assert h.pinnedCells + h.explicitPins.Keys == pins;
    PinnedOutset(a, OutsetOf(h, roots), h.freeList);
    ending, phi := CollectPinned(h, roots, cmd, v, pins);
    EndsSeen(g, a, u, cmd, pins, Conserved(g, v, cmd.words, GensOf(PinGens(cmd))), ending);
    if ending.MidEvacOom? { h.poisoned := true; }
    if !ending.Complete? { return; }
    CycledFrom(g, v, u, h.V(), h.cards[..], old(roots[..]), roots[..], phi, pins, GoesTo(cmd, counters),
      SureReach(cmd, counters, v.descs, pins));
    PinsRemain(g, v, h.V(), phi, pins, h.explicitPins);
    ms.objects := BlocksOf(g, h.V());
    Resumed(h, ms);
  }

  /** Pinning touches no more of the outset than pin bytes. */
  lemma PinnedOutset(a: Outset, b: Outset, list: seq<nat>)
    requires PinBytesOnly(a.v, b.v) && a.shelf == Shelf(a.v.descs, list) && b.shelf == Shelf(b.v.descs, list)
    requires b == a.(v := b.v, shelf := b.shelf)
    ensures b == a.(v := b.v)
  {
    hide Shelf;
    ShelfSansPins(a.v, b.v, list);
  }

  /** The end of a collection, seen from before the words of the stacks were pinned. */
  lemma EndsSeen(g: Geometry, a: Outset, u: View, cmd: Command, pins: set<nat>, cells: set<nat>, ending: Ending)
    requires Shaped(g, a.v) && Shaped(g, u) && |a.regions| == 6 && PinBytesOnly(a.v, u) && PinnedBy(a.v, u, cells)
    requires cells <= pins && EndsAt(g, a.(v := u), u, cmd, pins, ending)
    ensures Ends(g, a, cmd, pins, ending) && !ending.HeapPoisoned?
  {
    hide FirstPass, LaterFails, Stumbles, PinBytesOnly, PinnedBy, Ample;
    SameFirst(g, a, u, cmd, pins, cells);
    if Ample(a.v, pins) { AmpleStill(a.v, u, pins, cells); }
    assert EndsAt(g, a, u, cmd, pins, ending);
  }

  lemma AmpleStill(v: View, u: View, pins: set<nat>, cells: set<nat>)
    requires PinBytesOnly(v, u) && PinnedBy(v, u, cells) && cells <= pins && Ample(v, pins)
    ensures Ample(u, pins)
  {
    SamePagesIn(u.descs, v.descs, Free);
    assert PagesOf(cells) == {} && AllObjs(u) == AllObjs(v);
    hide CountGen, PagesIn;
  }

  /** A collection of the whole system: slabs flushed, the words of the stacks pinned, then the
      minor, major or full collection, the first two in the form that reports a lack of pages. */
  method Collect(h: PageHeap, ms: Mutators, roots: array<u64>, cmd: Command)
    returns (ending: Ending, ghost phi: map<nat, nat>)
    requires Going(h, ms) && RootsApart(h, roots) && cmd.Collects() && (h.poisoned ==> !cmd.Full?)
    modifies ms`tlabs, ms`objects, h`descs, h`regions, h`bytesAlloc, h`committed, h`freeList, h`highWater,
      h`pinnedCells, h`liveCounts, h`liveTarget, h`minorsSinceG0Promote, h`g0PromotesSinceG1Promote, h`poisoned,
      h.cells, h.startTable.bits, h.markTable.bits, h.cards, roots
    ensures ending.HeapPoisoned? <==> old(h.poisoned)
    ensures h.poisoned == (ending.HeapPoisoned? || ending.MidEvacOom?) && (!ending.Complete? ==> phi == map[])
    ensures ending.Complete? ==> RunOk(h, ms)
    ensures ending.HeapPoisoned? || ending.MidEvacOom? ==> Wrecked(h, ms)
    ensures ending.HeapPoisoned? ==> OutsetOf(h, roots) == old(OutsetOf(h, roots))
    ensures Shaped(h.Geo(), old(h.V())) && |old(h.regions)| == 6 && (ending.Complete? ==> Shaped(h.Geo(), h.V()))
    ensures !old(h.poisoned) ==>
              Ends(h.Geo(), old(OutsetOf(h, roots)), cmd, Held(h.Geo(), old(h.V()), h.explicitPins, cmd), ending)
    ensures ms.tlabs.Keys == old(ms.tlabs).Keys && forall s | s in ms.tlabs :: ms.tlabs[s] == EMPTY_TLAB
    ensures ending.Complete? ==>
              var pins := Held(h.Geo(), old(h.V()), h.explicitPins, cmd);
              Cycled(h.Geo(), old(h.V()), h.V(), h.cards[..], old(roots[..]), roots[..], phi, pins,
                GoesTo(cmd, old(CountersOf(h))), SureReach(cmd, old(CountersOf(h)), old(h.descs), pins))
    ensures ending.Complete? ==> CountersOf(h) == CountersAfter(cmd, old(CountersOf(h)))
    ensures (ending.Complete? && cmd.Minor?
             && PlanMinor(old(h.minorsSinceG0Promote), old(h.g0PromotesSinceG1Promote)).promoteG0) ==>
              NoPages(h.descs, G0)
  {
    hide Starts, GeoOk, MemoryOk, PagesOk, RegionsOk, WellPaired, CardsClean, SystemOk, HeapOk, NoLarge, CountsOk,
      BlocksOf, PassReady, Collected, PinBytesOnly, PinsOk, Relocated, PinsFollow, Conserved, PlanPass, HalfwayOk,
      PassedOn, ScanVerdict, Foretellable, CascadeForetold, GoodHeap, OneRest, ToKeep, Ample, NoPages, AllReachedFrom,
      CycleReady, GensBy, RootsHeld, ReachHeld, OldsHeld, CardsCover, CardsTrue, OneChunk, RunOk, Cycled, SureReach,
      GoesTo, CountersAfter, PlanMinor, Ends;
    GoingParts(h, ms);
    ValidShape(h);
    FlushAll(h, ms);
    GoingParts(h, ms);
    if !cmd.Full? && h.poisoned { return HeapPoisoned, map[]; }
    ending, phi := CollectFlushed(h, ms, roots, cmd);
  }
}
