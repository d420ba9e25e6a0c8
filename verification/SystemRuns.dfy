/** The run of a heap as a sequence of commands, each carried out by the code of its own. */
module SystemRuns {
  import opened Bits
  import opened Options
  import opened Bitmaps
  import opened Layouts
  import opened Pages
  import opened Objects
  import opened PageHeaps
  import opened Alloc
  import opened Demands
  import opened Graphs
  import opened EvacMarking
  import opened Passes
  import opened Cycles
  import opened Remembered
  import opened Pins
  import opened Tlabs
  import opened Runs
  import opened RunCollections

  /** What a run is seen to go through: the heap, the open pages and the Free pages in the order they are handed out,
      the slabs, the cards, the words of the roots, the refcounts of the pins, how many mutators there are, the
      promotion counters, how many pages the nursery may have, and whether the heap is poisoned. */
  datatype Moment = Moment(v: View, regions: seq<AllocRegion>, shelf: seq<nat>, slabs: map<Slot, Tlab>,
                           cards: seq<bool>, roots: seq<u64>, pins: map<nat, nat>, mutators: nat, counters: Counters,
                           cap: nat, poisoned: bool)
  {
    function Start(): Outset { Outset(v, regions, shelf, cards, roots, counters) }
  }

  ghost function Now(h: PageHeap, ms: Mutators, roots: array<u64>): (m: Moment)
    reads h, h.cells, h.startTable.bits, h.cards, ms, roots
  {
    Moment(h.V(), h.regions, Shelf(h.descs, h.freeList), ms.tlabs, h.cards[..], roots[..], h.explicitPins, ms.count,
           CountersOf(h), h.youngPageCap, h.poisoned)
  }

  // -- One step -------------------------------------------------------------

  /** The commands that a client may give: a mutator that is registered, an object that fits a page
      under a header that says so, a store into a pointer field, and of a poisoned heap no full collection. */
  predicate Allowed(g: Geometry, a: Moment, cmd: Command) {
    match cmd
    case New(m, gen, kind, n, header) =>
      && (m.Some? ==> m.value < a.mutators) && HasRegion(gen, kind) && 1 <= n <= PAGE_CELLS && (kind == Cons ==>
            header.None?)
      && (match header case None => n == 2 case Some(word) => HeaderFits(g, word, n))
    case Write(s, i, word) => |a.v.cells| == |a.v.starts| && Storable(g, a.v, s, i, word)
    case Flush(m) => m < a.mutators
    case Full(_) => !a.poisoned
    case _ => true
  }

  /** The refcount of `c` afterwards. */
  function CountAfter(g: Geometry, a: Moment, cmd: Command, c: nat): nat {
    var count := CountOf(a.pins, c);
    match cmd
    case DoPin(word) => if Pinnable(g, a.v, word) && CellOf(g, word) == c then count + 1 else count
    case DoUnpin(handle) => if handle == Some(c) && count > 0 then count - 1 else count
    case _ => count
  }

  /** A collection relocates the heap around the cells held through it, takes each object to the
      generation the counters say, aims the roots at what their targets have become, keeps what they reach, and
      leaves the cards as a rebuild makes them; and there were pages enough for it. */
  ghost predicate CollectOk(g: Geometry, a: Moment, cmd: Command, b: Moment, phi: map<nat, nat>)
    requires Shaped(g, a.v) && Shaped(g, b.v) && cmd.Collects()
  {
    var pins := Held(g, a.v, a.pins, cmd);
    && Cycled(g, a.v, b.v, b.cards, a.roots, b.roots, phi, pins, GoesTo(cmd, a.counters),
         SureReach(cmd, a.counters, a.v.descs, pins))
    && (cmd.Minor? && PlanMinor(a.counters.minors, a.counters.promotes).promoteG0 ==> NoPages(b.v.descs, G0))
    && |a.regions| == 6 && Ends(g, a.Start(), cmd, pins, Complete)
  }

  /** Whether an allocation is refused: there is no room in the slab, if it is for one, nor in the open page, and
      no page to be had, there being none or the nursery at its cap. */
  ghost predicate NoRoomFor(a: Moment, m: Option<nat>, gen: Generation, kind: PageKind, n: nat)
    requires HasRegion(gen, kind) && |a.regions| == 6 && (m.Some? ==> (m.value, RegionIndex(gen, kind)) in a.slabs)
  {
    && RoomLeft(a.regions, gen, kind) < n && (m.Some? ==> a.slabs[(m.value, RegionIndex(gen, kind))].Room() < n)
    && ((gen == G0 && CountGen(a.v.descs, G0) >= a.cap) || NoFreePage(a.v.descs))
  }

  /** An allocation has added one object or, refused, done nothing, and takes the nursery no further than its cap. */
  ghost predicate AddsOne(g: Geometry, a: Moment, b: Moment, m: Option<nat>, gen: Generation, kind: PageKind, n: nat,
                          header: Option<u64>)
    requires Shaped(g, a.v) && Shaped(g, b.v)
  {
    && WordsKept(g, a.v, b.v) && InUseKept(a.v.descs, b.v.descs) && CapKept(a.v.descs, b.v.descs, a.cap)
    && HasRegion(gen, kind) && |a.regions| == 6 && (m.Some? ==> (m.value, RegionIndex(gen, kind)) in a.slabs)
    && if NoRoomFor(a, m, gen, kind, n) then b.v == a.v && b.slabs == a.slabs
       else exists c: nat :: NewObjectAt(g, a.v, b.v, c, gen, n, header)
                             && b.slabs == SlabsAfter(a.slabs, a.regions, m, gen, kind, n, c)
  }

  /** A store has changed the one cell and made its card dirty. */
  predicate StoresOne(a: Moment, b: Moment, c: nat, word: u64) {
    && c < |a.v.cells| && b.v == a.v.(cells := a.v.cells[c := word])
    && c / CARD_CELLS < |a.cards| && b.cards == a.cards[c / CARD_CELLS := true]
  }

  /** Anything else leaves every object where it is, in its generation; only a store changes a
      word of one, or a card. */
  ghost predicate MutatorOk(g: Geometry, a: Moment, cmd: Command, b: Moment)
    requires Shaped(g, a.v) && Shaped(g, b.v) && !cmd.Collects()
  {
    && (forall s: nat | IsObj(a.v, s) :: SameShape(g, a.v, b.v, s, s)) && GensKept(a.v, b.v) && b.roots == a.roots
    && match cmd
       case New(m, gen, kind, n, header) =>
         && b.cards == a.cards && AddsOne(g, a, b, m, gen, kind, n, header)
         && (header.Some? ==> HeaderFits(g, header.value, n))
       case Write(s, i, word) => Storable(g, a.v, s, i, word) && StoresOne(a, b, s + i, word)
       case _ => b.v == a.v && b.cards == a.cards
  }

  /** A poisoned heap stays poisoned: there are no new objects and no collections, and only a store changes a cell. */
  ghost predicate PoisonedOk(a: Moment, cmd: Command, b: Moment) {
    && b.poisoned && !cmd.Full? && b.roots == a.roots && b.counters == a.counters
    && match cmd
       case Write(s, i, word) => StoresOne(a, b, s + i, word)
       case _ => b.v == a.v && b.cards == a.cards
  }

  /** There are six slabs to a mutator. A flush and a collection empty them, a newcomer's are empty, and but for
      allocation nothing else touches them. */
  ghost predicate SlabsOk(a: Moment, cmd: Command, b: Moment) {
    && (forall s :: s in b.slabs <==> s.0 < b.mutators && s.1 < 6)
    && match cmd
       case Flush(m) =>
         forall s | s in b.slabs :: s in a.slabs && b.slabs[s] == if s.0 == m then EMPTY_TLAB else a.slabs[s]
       case Register => forall s | s in b.slabs :: b.slabs[s] == if s in a.slabs then a.slabs[s] else EMPTY_TLAB
       case New(_, _, _, _, _) => a.poisoned ==> b.slabs == a.slabs
       case _ => if cmd.Collects() then forall s | s in b.slabs :: b.slabs[s] == EMPTY_TLAB else b.slabs == a.slabs
  }

  /** A heap that is not poisoned is well-formed, and all its cross-generation pointers lie on dirty cards. */
  ghost predicate Sound(g: Geometry, m: Moment)
    requires Shaped(g, m.v)
  {
    !m.poisoned ==> HeapOk(g, m.v) && CardsCover(g, m.v, m.cards)
  }

  /** A step of a run. A minor or major collection that runs out of pages half way poisons the heap. */
  ghost predicate StepOk(g: Geometry, a: Moment, cmd: Command, b: Moment, phi: map<nat, nat>) {
    && Shaped(g, a.v) && Shaped(g, b.v) && Sound(g, a) && Sound(g, b)
    && (forall c: nat :: CountOf(b.pins, c) == CountAfter(g, a, cmd, c))
    && b.mutators == a.mutators + (if cmd.Register? then 1 else 0) && b.cap == a.cap && SlabsOk(a, cmd, b)
    && |a.regions| == 6
    && if a.poisoned then PoisonedOk(a, cmd, b) && phi == map[]
       else if b.poisoned then
         (cmd.Minor? || cmd.Major?) && phi == map[]
         && Ends(g, a.Start(), cmd, Held(g, a.v, a.pins, cmd), MidEvacOom)
       else b.counters == CountersAfter(cmd, a.counters)
            && if cmd.Collects() then CollectOk(g, a, cmd, b, phi) else MutatorOk(g, a, cmd, b)
  }

  lemma NothingMoved(g: Geometry, a: Moment, cmd: Command, b: Moment)
    requires Shaped(g, a.v) && b.v == a.v && b.cards == a.cards && b.roots == a.roots
    requires !cmd.Collects() && !cmd.New? && !cmd.Write? && b.poisoned == a.poisoned && b.counters == a.counters
    requires !a.poisoned ==> HeapOk(g, a.v)
    ensures if a.poisoned then PoisonedOk(a, cmd, b) else MutatorOk(g, a, cmd, b)
  {
    if !a.poisoned { SameView(g, a.v); }
    hide SameShape;
  }

  lemma OnlyMore(g: Geometry, a: Moment, cmd: Command, b: Moment, r: Option<nat>)
    requires Shaped(g, a.v) && Shaped(g, b.v) && cmd.New? && b.cards == a.cards && b.roots == a.roots
    requires b.poisoned == a.poisoned && b.counters == a.counters && (a.poisoned ==> r.None?)
    requires r.None? ==> b.v == a.v && b.slabs == a.slabs
    requires HasRegion(cmd.gen, cmd.kind) && |a.regions| == 6
    requires cmd.mutator.Some? ==> (cmd.mutator.value, RegionIndex(cmd.gen, cmd.kind)) in a.slabs
    requires !a.poisoned ==> (r.None? <==> NoRoomFor(a, cmd.mutator, cmd.gen, cmd.kind, cmd.n))
    requires r.Some? ==> NewObjectAt(g, a.v, b.v, r.value, cmd.gen, cmd.n, cmd.header)
                         && b.slabs == SlabsAfter(a.slabs, a.regions, cmd.mutator, cmd.gen, cmd.kind, cmd.n, r.value)
    requires !a.poisoned ==>
               && WordsKept(g, a.v, b.v) && GensKept(a.v, b.v) && CapKept(a.v.descs, b.v.descs, a.cap)
               && (forall s: nat | IsObj(a.v, s) :: SameShape(g, a.v, b.v, s, s))
    requires InUseKept(a.v.descs, b.v.descs) && (cmd.header.Some? ==> HeaderFits(g, cmd.header.value, cmd.n))
    ensures if a.poisoned then PoisonedOk(a, cmd, b) else MutatorOk(g, a, cmd, b)
  {
    hide SameShape, NewObjectAt, WordsKept, GensKept, InUseKept, CapKept, HeaderFits, NoRoomFor, SlabsAfter;
  }

  lemma OnlyStored(g: Geometry, a: Moment, cmd: Command, b: Moment)
    requires Shaped(g, a.v) && Shaped(g, b.v) && cmd.Write? && b.roots == a.roots
    requires b.poisoned == a.poisoned && b.counters == a.counters
    requires StoresOne(a, b, cmd.s + cmd.i, cmd.word) && Storable(g, a.v, cmd.s, cmd.i, cmd.word)
    requires !a.poisoned ==> forall s: nat | IsObj(a.v, s) :: SameShape(g, a.v, b.v, s, s)
    ensures if a.poisoned then PoisonedOk(a, cmd, b) else MutatorOk(g, a, cmd, b)
  {
    hide SameShape, Storable;
  }

  /** A command of a mutator as a step. */
  lemma StepIs(g: Geometry, a: Moment, cmd: Command, b: Moment)
    requires Shaped(g, a.v) && Shaped(g, b.v) && Sound(g, a) && Sound(g, b) && |a.regions| == 6
    requires forall c: nat :: CountOf(b.pins, c) == CountAfter(g, a, cmd, c)
    requires b.mutators == a.mutators + (if cmd.Register? then 1 else 0) && b.cap == a.cap
    requires b.counters == a.counters && b.poisoned == a.poisoned && !cmd.Collects() && SlabsOk(a, cmd, b)
    requires if a.poisoned then PoisonedOk(a, cmd, b) else MutatorOk(g, a, cmd, b)
    ensures StepOk(g, a, cmd, b, map[])
  {
    hide Sound, SlabsOk, PoisonedOk, MutatorOk, CountOf, CountAfter, Ends, CollectOk;
  }

  /** Whether a word may be stored there, and the block it would be stored in. */
  method MayStore(h: PageHeap, s: nat, i: nat, word: u64) returns (ok: bool, n: nat, st: Start)
    requires h.Valid()
    ensures ok == Storable(h.Geo(), h.V(), s, i, word)
    ensures ok ==> n == SizeOf(h.Geo(), h.V(), s) && st == h.V().starts[s]
  {
    hide Starts, GeoOk;
    ok, n, st := false, 0, NoStart;
    if s >= h.cells.Length || h.descs[s / PAGE_CELLS].generation == Free { return; }
    var started := h.startTable.IsStart(s);
    var cons := h.startTable.IsConsStart(s);
    if !started { return; }
    var layout := if cons then ObjectLayout(2, 0, 2) else h.layout.headerLayout(h.cells[s]);
    n, st := layout.totalCells, if cons then ConsStart else HeaderStart;
    ok := s + i < h.cells.Length && i < n && layout.ptrStart <= i < layout.ptrEnd
          && (i == 0 ==> !IsMarker(h.Geo(), word));
  }

  lemma Standing(h: PageHeap, ms: Mutators, roots: array<u64>)
    requires Going(h, ms)
    ensures h.Valid() && Shaped(h.Geo(), h.V())
    ensures Sound(h.Geo(), Now(h, ms, roots)) && (!h.poisoned ==> HeapOk(h.Geo(), h.V()))
    ensures (RunOk(h, ms) <==> !h.poisoned) && |h.regions| == 6 && (!h.poisoned ==> h.liveTarget == None)
    ensures forall s :: s in ms.tlabs <==> s.0 < ms.count && s.1 < 6
  {
    GoingParts(h, ms);
    ValidShape(h);
    if !h.poisoned { RunReady(h, ms); }
    hide Starts, GeoOk, MemoryOk, PagesOk, RegionsOk, WellPaired, CardsClean, SystemOk, NoLarge, BlocksOf, PassReady,
      CountsOk, HeapOk, RunOk, CardsCover;
  }

  method PinOne(h: PageHeap, ms: Mutators, word: u64) returns (handle: Option<nat>)
    requires Going(h, ms)
    modifies h`explicitPins
    ensures Going(h, ms)
    ensures handle == if Pinnable(h.Geo(), h.V(), word) then Some(CellOf(h.Geo(), word)) else None
    ensures forall c: nat ::
              CountOf(h.explicitPins, c) == CountOf(old(h.explicitPins), c) + if handle == Some(c) then 1 else 0
  {
    hide Starts, GeoOk, MemoryOk, PagesOk, RegionsOk, WellPaired, CardsClean, SystemOk, HeapOk, NoLarge, BlocksOf,
      CountOf, Pinnable, CardsCover, Counted;
    GoingParts(h, ms);
    handle := Pin(h, word);
    StillCounted(h.V(), h.explicitPins);
  }

  lemma StillCounted(v: View, pins: map<nat, nat>)
    ensures CountsOk(v, pins) ==> Counted(pins) && forall c | c in pins :: IsObj(v, c)
  {
  }

  method UnpinOne(h: PageHeap, ms: Mutators, handle: Option<nat>)
    requires Going(h, ms)
    modifies h`explicitPins
    ensures Going(h, ms)
    ensures forall c: nat :: CountOf(h.explicitPins, c) ==
              if handle == Some(c) && CountOf(old(h.explicitPins), c) > 0 then CountOf(old(h.explicitPins), c) - 1
              else CountOf(old(h.explicitPins), c)
  {
    hide Starts, GeoOk, MemoryOk, PagesOk, RegionsOk, WellPaired, CardsClean, SystemOk, HeapOk, NoLarge, BlocksOf,
      CountOf, Pinnable, CardsCover, Counted;
    GoingParts(h, ms);
    Unpin(h, handle);
    StillCounted(h.V(), h.explicitPins);
  }

  method FlushOne(h: PageHeap, ms: Mutators, m: nat)
    requires Going(h, ms) && m < ms.count
    modifies ms`tlabs
    ensures Going(h, ms)
    ensures forall s | s in ms.tlabs :: s in old(ms.tlabs)
                                        && ms.tlabs[s] == if s.0 == m then EMPTY_TLAB else old(ms.tlabs)[s]
  {
    hide Starts, GeoOk, MemoryOk, PagesOk, RegionsOk, WellPaired, CardsClean, SystemOk, HeapOk, NoLarge, CountsOk,
      BlocksOf, PassReady, CardsCover;
    ms.Flush(m);
  }

  method AddMutator(h: PageHeap, ms: Mutators)
    requires Going(h, ms)
    modifies ms
    ensures Going(h, ms) && ms.count == old(ms.count) + 1
    ensures forall s | s in ms.tlabs ::
              ms.tlabs[s] == if s in old(ms.tlabs) then old(ms.tlabs)[s] else EMPTY_TLAB
  {
    hide Starts, GeoOk, MemoryOk, PagesOk, RegionsOk, WellPaired, CardsClean, SystemOk, HeapOk, NoLarge, CountsOk,
      BlocksOf, PassReady, CardsCover;
    var _ := ms.Register();
  }

  /** When an allocation is refused, seen from the run. */
  lemma DeclinedIs(h: PageHeap, ms: Mutators, roots: array<u64>, m: Option<nat>, gen: Generation, kind: PageKind,
                   n: nat)
    requires HasRegion(gen, kind) && |h.regions| == 6 && !h.poisoned && h.liveTarget == None
    requires m.Some? ==> (m.value, RegionIndex(gen, kind)) in ms.tlabs
    ensures Declined(h, ms, m, gen, kind, n) <==> NoRoomFor(Now(h, ms, roots), m, gen, kind, n)
  {
    hide CountGen, RoomLeft, NoFreePage;
  }

  /** An allocation. */
  method NewOne(h: PageHeap, ms: Mutators, roots: array<u64>, cmd: Command) returns (ok: bool)
    requires Going(h, ms) && cmd.New? && RootsApart(h, roots)
    modifies ms`tlabs, ms`refills, ms`objects, h`descs, h`regions, h`bytesAlloc, h`committed, h`freeList, h`highWater,
      h.cells, h.startTable.bits
    ensures Going(h, ms) && roots[..] == old(roots[..])
    ensures ok ==> StepOk(h.Geo(), old(Now(h, ms, roots)), cmd, Now(h, ms, roots), map[])
    ensures ok == Allowed(h.Geo(), old(Now(h, ms, roots)), cmd)
  {
    hide RunOk, Wrecked, HeapOk, SameShape, HeaderFits, WordsKept, GensKept, Starts, GeoOk, WellPaired, MutatorOk,
      PoisonedOk, Declined, NewObjectAt, InUseKept, CapKept, Going, CountOf, CardsCover, NoRoomFor, SlabsAfter, Ends,
      StepOk, Shelf, Sound;
    ghost var g, a := h.Geo(), Now(h, ms, roots);
    Standing(h, ms, roots);
    match cmd
    case New(m, gen, kind, n, header) =>
      var fits := match header case None => n == 2 case Some(word) => HeaderFits(h.Geo(), word, n);
      if !((m.Some? ==> m.value < ms.count) && HasRegion(gen, kind) && 1 <= n <= PAGE_CELLS && (kind == Cons ==>
          header.None?) && fits) {
        return false;
      }
      if !h.poisoned { DeclinedIs(h, ms, roots, m, gen, kind, n); }
      var r := AddObject(h, ms, m, gen, kind, n, header);
      Standing(h, ms, roots);
      OnlyMore(g, a, cmd, Now(h, ms, roots), r);
      StepIs(g, a, cmd, Now(h, ms, roots));
      ok := true;
  }

  /** A store. */
  method WriteOne(h: PageHeap, ms: Mutators, roots: array<u64>, cmd: Command) returns (ok: bool)
    requires Going(h, ms) && cmd.Write? && RootsApart(h, roots)
    modifies h.cells, h.cards
    ensures Going(h, ms) && roots[..] == old(roots[..])
    ensures ok ==> StepOk(h.Geo(), old(Now(h, ms, roots)), cmd, Now(h, ms, roots), map[])
    ensures ok == Allowed(h.Geo(), old(Now(h, ms, roots)), cmd)
  {
    hide RunOk, Wrecked, HeapOk, SameShape, Storable, SizeOf, Starts, GeoOk, WellPaired, MutatorOk, PoisonedOk, Going,
      CountOf, CardsCover, Ends, StepOk, Shelf, Sound;
    ghost var g, a := h.Geo(), Now(h, ms, roots);
    Standing(h, ms, roots);
    var may, n, st := MayStore(h, cmd.s, cmd.i, cmd.word);
    if !may { return false; }
    StoreField(h, ms, cmd.s, n, st, cmd.i, cmd.word);
    Standing(h, ms, roots);
    OnlyStored(g, a, cmd, Now(h, ms, roots));
    StepIs(g, a, cmd, Now(h, ms, roots));
    ok := true;
  }

  /** A command of a mutator. It is carried out unless it is not allowed. */
  method Mutate(h: PageHeap, ms: Mutators, roots: array<u64>, cmd: Command) returns (ok: bool)
    requires Going(h, ms) && !cmd.Collects() && RootsApart(h, roots)
    modifies ms, h`descs, h`regions, h`bytesAlloc, h`committed, h`freeList, h`highWater, h`explicitPins, h.cells,
      h.startTable.bits, h.cards
    ensures Going(h, ms) && roots[..] == old(roots[..])
    ensures ok ==> StepOk(h.Geo(), old(Now(h, ms, roots)), cmd, Now(h, ms, roots), map[])
    ensures ok == Allowed(h.Geo(), old(Now(h, ms, roots)), cmd)
  {
    hide RunOk, Wrecked, HeapOk, SameShape, Storable, HeaderFits, Starts, GeoOk, Pinnable, WellPaired, MutatorOk,
      PoisonedOk, Going, CountOf, CardsCover, Ends, StepOk, Shelf, Sound;
    ghost var g, a := h.Geo(), Now(h, ms, roots);
    Standing(h, ms, roots);
    match cmd {
      case DoPin(word) =>
        var _ := PinOne(h, ms, word);
        Standing(h, ms, roots);
        NothingMoved(g, a, cmd, Now(h, ms, roots));
        StepIs(g, a, cmd, Now(h, ms, roots));
      case DoUnpin(handle) =>
        UnpinOne(h, ms, handle);
        Standing(h, ms, roots);
        NothingMoved(g, a, cmd, Now(h, ms, roots));
        StepIs(g, a, cmd, Now(h, ms, roots));
      case New(m, gen, kind, n, header) =>
        ok := NewOne(h, ms, roots, cmd);
        return;
      case Write(s, i, word) =>
        ok := WriteOne(h, ms, roots, cmd);
        return;
      case Flush(m) =>
        if m >= ms.count { return false; }
        FlushOne(h, ms, m);
        Standing(h, ms, roots);
        NothingMoved(g, a, cmd, Now(h, ms, roots));
        StepIs(g, a, cmd, Now(h, ms, roots));
      case Register =>
        AddMutator(h, ms);
        Standing(h, ms, roots);
        NothingMoved(g, a, cmd, Now(h, ms, roots));
        StepIs(g, a, cmd, Now(h, ms, roots));
    }
    ok := true;
  }

  /** A collection that panics: a full one for want of pages, or a cascade at a marker. */
  ghost predicate Panics(g: Geometry, a: Moment, cmd: Command) {
    && !a.poisoned && cmd.Collects() && Shaped(g, a.v) && |a.regions| == 6
    && Ends(g, a.Start(), cmd, Held(g, a.v, a.pins, cmd), Panic)
  }

  /** A collection as a step. */
  lemma CollectIs(g: Geometry, a: Moment, cmd: Command, b: Moment, phi: map<nat, nat>, ending: Ending)
    requires Shaped(g, a.v) && Shaped(g, b.v) && Sound(g, a) && Sound(g, b) && |a.regions| == 6
    requires cmd.Collects() && b.pins == a.pins && b.mutators == a.mutators && b.cap == a.cap && SlabsOk(a, cmd, b)
    requires !ending.Panic? && (ending.HeapPoisoned? <==> a.poisoned) && (b.poisoned <==> !ending.Complete?)
    requires if a.poisoned then b.Start() == a.Start() && !cmd.Full?
             else Ends(g, a.Start(), cmd, Held(g, a.v, a.pins, cmd), ending)
    requires if ending.Complete? then CollectOk(g, a, cmd, b, phi) && b.counters == CountersAfter(cmd, a.counters)
             else phi == map[]
    ensures StepOk(g, a, cmd, b, phi)
  {
    hide Sound, SlabsOk, MutatorOk, CountOf, Ends, CollectOk, Held;
    if !a.poisoned { EndsWays(g, a.Start(), cmd, Held(g, a.v, a.pins, cmd), ending); }
  }

  /** A collection. */
  method CollectOne(h: PageHeap, ms: Mutators, roots: array<u64>, cmd: Command)
    returns (ok: bool, ghost phi: map<nat, nat>)
    requires Going(h, ms) && RootsApart(h, roots) && cmd.Collects()
    modifies ms`tlabs, ms`objects, h`descs, h`regions, h`bytesAlloc, h`committed, h`freeList, h`highWater,
      h`pinnedCells, h`liveCounts, h`liveTarget, h`minorsSinceG0Promote, h`g0PromotesSinceG1Promote, h`poisoned,
      h.cells, h.startTable.bits, h.markTable.bits, h.cards, roots
    ensures ok ==> Going(h, ms) && StepOk(h.Geo(), old(Now(h, ms, roots)), cmd, Now(h, ms, roots), phi)
    ensures ok ==> Allowed(h.Geo(), old(Now(h, ms, roots)), cmd)
    ensures !ok ==> !Allowed(h.Geo(), old(Now(h, ms, roots)), cmd)
                    || Panics(h.Geo(), old(Now(h, ms, roots)), cmd)
  {
    hide RunOk, Wrecked, HeapOk, CountsOk, BlocksOf, Starts, GeoOk, Cycled, Conserved, NoPages, MutatorOk, WellPaired,
      SureReach, Held, CardsCover, Ends, Shelf, StepOk, Going, CountersAfter, Sound;
    if cmd.Full? && h.poisoned { return false, map[]; }
    Standing(h, ms, roots);
    ghost var a := Now(h, ms, roots);
    var ending;
    ending, phi := Collect(h, ms, roots, cmd);
    ok := !ending.Panic?;
    if !ok { return; }
    GoingAgain(h, ms);
    Standing(h, ms, roots);
    CollectIs(h.Geo(), a, cmd, Now(h, ms, roots), phi, ending);
  }

  lemma GoingAgain(h: PageHeap, ms: Mutators)
    requires RunOk(h, ms) || Wrecked(h, ms)
    ensures Going(h, ms)
  {
    hide RunOk, Wrecked;
  }

  /** One command. It is carried out unless it is not allowed or is a collection that panics. */
  method Execute(h: PageHeap, ms: Mutators, roots: array<u64>, cmd: Command)
    returns (ok: bool, ghost phi: map<nat, nat>)
    requires Going(h, ms) && RootsApart(h, roots)
    modifies ms, h`descs, h`regions, h`bytesAlloc, h`committed, h`freeList, h`highWater, h`pinnedCells, h`explicitPins,
      h`liveCounts, h`liveTarget, h`minorsSinceG0Promote, h`g0PromotesSinceG1Promote, h`poisoned, h.cells,
      h.startTable.bits, h.markTable.bits, h.cards, roots
    ensures ok ==> Going(h, ms) && StepOk(h.Geo(), old(Now(h, ms, roots)), cmd, Now(h, ms, roots), phi)
    ensures ok ==> Allowed(h.Geo(), old(Now(h, ms, roots)), cmd)
    ensures !ok ==> !Allowed(h.Geo(), old(Now(h, ms, roots)), cmd)
                    || Panics(h.Geo(), old(Now(h, ms, roots)), cmd)
  {
    hide RunOk, Wrecked, HeapOk, CountsOk, BlocksOf, Starts, GeoOk, Cycled, Conserved, NoPages, MutatorOk, WellPaired,
      SureReach, Held, CardsCover, Ends, Shelf;
    phi := map[];
    if cmd.Collects() {
      ok, phi := CollectOne(h, ms, roots, cmd);
    } else {
      ok := Mutate(h, ms, roots, cmd);
    }
  }

  // -- Runs -----------------------------------------------------------------

  /** The moments that commands lead through, one relocation to a step. */
  ghost predicate IsRun(g: Geometry, cmds: seq<Command>, moments: seq<Moment>, phis: seq<map<nat, nat>>) {
    && |moments| == |phis| + 1 && |phis| <= |cmds|
    && forall k | 0 <= k < |phis| :: StepOk(g, moments[k], cmds[k], moments[k + 1], phis[k])
  }

  /** Once poisoned, a heap is poisoned for good: no object is added and none goes, no page is opened or given back,
      whatever allocations and collections are asked for. */
  lemma {:induction false} PoisonLasts(g: Geometry, cmds: seq<Command>, moments: seq<Moment>, phis: seq<map<nat, nat>>,
                                       i: nat, j: nat)
    requires IsRun(g, cmds, moments, phis) && i <= j < |moments| && moments[i].poisoned
    ensures moments[j].poisoned && AllObjs(moments[j].v) == AllObjs(moments[i].v)
    ensures moments[j].v.starts == moments[i].v.starts && moments[j].v.descs == moments[i].v.descs
    ensures moments[j].roots == moments[i].roots && moments[j].counters == moments[i].counters
  {
    hide StepOk;
    if i < j {
      PoisonLasts(g, cmds, moments, phis, i, j - 1);
      PoisonStep(g, cmds[j - 1], moments[j - 1], moments[j], phis[j - 1]);
    }
  }

  lemma PoisonStep(g: Geometry, cmd: Command, a: Moment, b: Moment, phi: map<nat, nat>)
    requires StepOk(g, a, cmd, b, phi) && a.poisoned
    ensures b.poisoned && b.v.starts == a.v.starts && b.v.descs == a.v.descs && AllObjs(b.v) == AllObjs(a.v)
    ensures b.roots == a.roots && b.counters == a.counters
  {
    hide SlabsOk, Ends, MutatorOk, Sound;
  }

  /** As long as there is no collection, allocation takes the nursery no further than its cap. */
  lemma {:induction false} NurseryCapped(g: Geometry, cmds: seq<Command>, moments: seq<Moment>,
                                         phis: seq<map<nat, nat>>, i: nat, j: nat)
    requires IsRun(g, cmds, moments, phis) && i <= j < |moments|
    requires forall k | i <= k < j :: !cmds[k].Collects()
    ensures moments[j].cap == moments[i].cap && CapKept(moments[i].v.descs, moments[j].v.descs, moments[i].cap)
  {
    hide CountGen;
    if i < j {
      NurseryCapped(g, cmds, moments, phis, i, j - 1);
      CapStep(g, cmds[j - 1], moments[j - 1], moments[j], phis[j - 1]);
    }
  }

  lemma CapStep(g: Geometry, cmd: Command, a: Moment, b: Moment, phi: map<nat, nat>)
    requires StepOk(g, a, cmd, b, phi) && !cmd.Collects()
    ensures b.cap == a.cap && CapKept(a.v.descs, b.v.descs, a.cap)
  {
    hide Sound, SameShape, WordsKept, GensKept, NewObjectAt, Storable, CountGen;
  }

  /** Commands one after another, up to the first that is not carried out. A collection that runs out of pages half
      way does not end the run. */
  method Run(h: PageHeap, ms: Mutators, roots: array<u64>, cmds: seq<Command>)
    returns (n: nat, ghost moments: seq<Moment>, ghost phis: seq<map<nat, nat>>)
    requires Going(h, ms) && RootsApart(h, roots)
    modifies ms, h`descs, h`regions, h`bytesAlloc, h`committed, h`freeList, h`highWater, h`pinnedCells, h`explicitPins,
      h`liveCounts, h`liveTarget, h`minorsSinceG0Promote, h`g0PromotesSinceG1Promote, h`poisoned, h.cells,
      h.startTable.bits, h.markTable.bits, h.cards, roots
    ensures n <= |cmds| && |phis| == n && IsRun(h.Geo(), cmds, moments, phis) && moments[0] == old(Now(h, ms, roots))
    ensures n == |cmds| ==> Going(h, ms) && moments[n] == Now(h, ms, roots)
    ensures n < |cmds| ==>
              !Allowed(h.Geo(), moments[n], cmds[n]) || Panics(h.Geo(), moments[n], cmds[n])
  {
    hide RunOk, Wrecked, StepOk, Allowed, Panics;
    n, moments, phis := 0, [Now(h, ms, roots)], [];
    while n < |cmds|
      invariant n <= |cmds| && |phis| == n && IsRun(h.Geo(), cmds, moments, phis)
      invariant moments[0] == old(Now(h, ms, roots))
      invariant Going(h, ms) && moments[n] == Now(h, ms, roots)
    {
      ghost var phi;
      var ok;
      ok, phi := Execute(h, ms, roots, cmds[n]);
      if !ok { return; }
      moments, phis, n := moments + [Now(h, ms, roots)], phis + [phi], n + 1;
    }
  }
}
