/** The mark an evacuation starts with: caller roots, dirty cards and pins. */
module EvacMarking {
  import opened Bits
  import opened Options
  import opened Bitmaps
  import opened Layouts
  import opened Pages
  import opened Objects
  import opened PageHeaps
  import opened Marking
  import opened Cards
  import opened Rewrite
  import opened Copying

  // -- Seeds ----------------------------------------------------------------

  /** The words held by some cells. */
  function WordsAt(v: View, cells: set<nat>): set<u64> {
    set c | c in cells && c < |v.cells| :: v.cells[c]
  }

  function WordsOf(roots: seq<u64>): set<u64> { set i | 0 <= i < |roots| :: roots[i] }

  /** Pointer cells of the pinned objects outside generation `target`. */
  function CrossPinPtrs(g: Geometry, v: View, pins: set<nat>, target: Generation): set<nat>
    requires Shaped(g, v)
  {
    set s, c | s in pins && IsObj(v, s) && GenAt(v, s) != target && c in PtrCells(g, v, s) :: c
  }

  function PinsIn(v: View, pins: set<nat>, target: Generation): set<nat> {
    set s | s in pins && IsObj(v, s) && GenAt(v, s) == target
  }

  /** Everything that keeps an object of `target` alive in a pass: the caller's
      roots, the visited cells, the pins in `target` and what other pins point to. */
  function EvacSeeds(g: Geometry, v: View, target: Generation, roots: seq<u64>, visited: set<nat>,
                     pins: set<nat>): set<nat>
    requires Shaped(g, v)
  {
    SeedCells(g, v, target, WordsOf(roots)) + SeedCells(g, v, target, WordsAt(v, visited))
    + PinsIn(v, pins, target) + SeedCells(g, v, target, WordsAt(v, CrossPinPtrs(g, v, pins, target)))
  }

  /** What the given cells lead to is marked. */
  ghost predicate CellsMarked(g: Geometry, v: View, target: Generation, cells: set<nat>, marks: seq<bool>) {
    forall c | c in cells :: c < |v.cells| && ChildMarked(g, v, target, v.cells[c], marks)
  }

  /** What the given cells lead to is among the seeds. */
  ghost predicate CellsSeeded(g: Geometry, v: View, target: Generation, cells: set<nat>, seeds: set<nat>) {
    forall c | c in cells :: c < |v.cells| && (Follows(g, v, target, v.cells[c]) ==> CellOf(g, v.cells[c]) in seeds)
  }

  lemma StillMarked(g: Geometry, v: View, target: Generation, cells: set<nat>, marks: seq<bool>, marks': seq<bool>)
    requires CellsMarked(g, v, target, cells, marks) && MarkedObjs(v, target, marks) <= MarkedObjs(v, target, marks')
    ensures CellsMarked(g, v, target, cells, marks')
  {
    hide Follows, MarkedObjs;
  }

  /** A mark in progress that has offered the cells of `offered`. */
  ghost predicate Offering(g: Geometry, v: View, target: Generation, seeds: set<nat>, marks0: seq<bool>,
                           marks: seq<bool>, queue: seq<nat>, offered: set<nat>)
  {
    Drained(g, v, target, seeds, marks0, marks, queue) && CellsMarked(g, v, target, offered, marks)
  }

  lemma OfferCell(g: Geometry, v: View, target: Generation, seeds: set<nat>, marks0: seq<bool>, marks: seq<bool>,
                  queue: seq<nat>, marks': seq<bool>, queue': seq<nat>, offered: set<nat>, c: nat)
    requires Shaped(g, v) && |marks| == |v.starts| && c < |v.cells|
    requires Offering(g, v, target, seeds, marks0, marks, queue, offered)
    requires Offered(g, v, target, v.cells[c], marks, queue, marks', queue')
    requires Follows(g, v, target, v.cells[c]) ==> CellOf(g, v.cells[c]) in seeds
    ensures Offering(g, v, target, seeds, marks0, marks', queue', offered + {c})
  {
    hide Drained, Follows, MarkedObjs, Offered, ChildMarked;
    OfferSeed(g, v, target, seeds, v.cells[c], marks0, marks, queue, marks', queue');
    StillMarked(g, v, target, offered, marks, marks');
  }

  /** Offers the cells `[lo, hi)` in Mark mode. */
  method MarkRange(h: PageHeap, lo: nat, hi: nat, target: Generation, queue: seq<nat>, ghost seeds: set<nat>,
                   ghost marks0: seq<bool>, ghost offered: set<nat>) returns (queue': seq<nat>)
    requires h.Valid() && NoLarge(h.V()) && target != Free && KindsOk(h.descs)
    requires Offering(h.Geo(), h.V(), target, seeds, marks0, h.markTable.Map(), queue, offered)
    requires CellsSeeded(h.Geo(), h.V(), target, Range(lo, hi), seeds)
    modifies h.markTable.bits
    ensures h.Valid()
    ensures Offering(h.Geo(), h.V(), target, seeds, marks0, h.markTable.Map(), queue', offered + Range(lo, hi))
  {
    hide GeoOk, Starts, Marks, Offering, Follows, CellsSeeded, Offered, NoLarge, KindsOk;
    ghost var g, v := h.Geo(), h.V();
    queue' := queue;
    var c := lo;
    assert offered + Range(lo, lo) == offered;
    while c < hi
      invariant lo <= c && (c <= hi || c == lo)
      invariant h.Valid() && h.V() == v
      invariant Offering(g, v, target, seeds, marks0, h.markTable.Map(), queue', offered + Range(lo, c))
    {
      ghost var marks1, queue1 := h.markTable.Map(), queue';
      SeededCell(g, v, target, Range(lo, hi), seeds, c) by { assert Between(lo, c, hi); }
      queue' := MarkVisitSlot(h, h.cells[c], target, queue');
      OfferCell(g, v, target, seeds, marks0, marks1, queue1, h.markTable.Map(), queue', offered + Range(lo, c), c);
      assert offered + Range(lo, c) + {c} == offered + Range(lo, c + 1);
      c := c + 1;
    }
    assert offered + Range(lo, c) == offered + Range(lo, hi);
  }

  lemma SeededCell(g: Geometry, v: View, target: Generation, cells: set<nat>, seeds: set<nat>, c: nat)
    requires CellsSeeded(g, v, target, cells, seeds) && c in cells
    ensures c < |v.cells| && (Follows(g, v, target, v.cells[c]) ==> CellOf(g, v.cells[c]) in seeds)
  {
  }

  lemma SeededPart(g: Geometry, v: View, target: Generation, cells: set<nat>, part: set<nat>, seeds: set<nat>)
    requires CellsSeeded(g, v, target, cells, seeds) && part <= cells
    ensures CellsSeeded(g, v, target, part, seeds)
  {
    hide Follows;
  }

  lemma WalkSize(g: Geometry, v: View, p: nat, s: nat, end: nat)
    requires HeapOk(g, v) && s < end <= |v.starts| && end <= PAGE_CELLS * (p + 1) && s / PAGE_CELLS == p
    requires p < |v.descs|
    requires v.descs[p].generation != Free && v.starts[s] != NoStart
    ensures IsObj(v, s) && SizeOf(g, v, s) >= 1
    ensures WalkVisits(g, v, s, end) == PtrCells(g, v, s) + WalkVisits(g, v, s + SizeOf(g, v, s), end)
    ensures s + SizeOf(g, v, s) < end ==> (s + SizeOf(g, v, s)) / PAGE_CELLS == p
  {
    assert IsObj(v, s) && ObjOk(g, v, s);
  }

  /** `visit_card_pointer_cells` in Mark mode. */
  method MarkCardCells(h: PageHeap, k: nat, target: Generation, queue: seq<nat>, ghost seeds: set<nat>,
                       ghost marks0: seq<bool>, ghost offered: set<nat>) returns (queue': seq<nat>)
    requires MarkReady(h, target) && k < h.cards.Length
    requires Offering(h.Geo(), h.V(), target, seeds, marks0, h.markTable.Map(), queue, offered)
    requires CellsSeeded(h.Geo(), h.V(), target, CardVisits(h.Geo(), h.V(), k), seeds)
    modifies h.markTable.bits
    ensures h.Valid()
    ensures Offering(h.Geo(), h.V(), target, seeds, marks0, h.markTable.Map(), queue',
        offered + CardVisits(h.Geo(), h.V(), k))
  {
    hide GeoOk, Starts, Marks, Offering, Follows, CellsSeeded, Offered, PtrCells, WalkVisits, Owner, NextStart,
      ConsPagesOk, IsObj, HeapOk, ObjOk;
    ghost var g, v := h.Geo(), h.V();
    queue' := queue;
    CardOnPage(k);
    var p := k / CARDS_PER_PAGE;
    var start, end := CARD_CELLS * k, CARD_CELLS * (k + 1);
    var s := FindWalkStart(h, start, end);
    if h.descs[p].kind == Unassigned {
      assert offered + {} == offered;
      return;
    }
    ghost var all := WalkVisits(g, v, s, end);
    ghost var done := offered;
    WalkStartOnPage(v.starts, start, end, p);
    while s < end
      invariant s < end ==> s / PAGE_CELLS == p
      invariant h.Valid() && h.V() == v
      invariant Offering(g, v, target, seeds, marks0, h.markTable.Map(), queue', done)
      invariant offered + all == done + WalkVisits(g, v, s, end) && WalkVisits(g, v, s, end) <= all
      decreases end - s
    {
      var isStart := h.startTable.IsStart(s);
      if !isStart {
        WalkStops(g, v, s, end);
        break;
      }
      WalkSize(g, v, p, s, end);
      ConsPage(v, s) by { assert v.descs[s / PAGE_CELLS].generation != Free; }
      var layout := ObjectPointerCells(h, s);
      PtrRange(g, v, s);
      SeededPart(g, v, target, all, PtrCells(g, v, s), seeds);
      queue' := MarkRange(h, s + layout.ptrStart, s + layout.ptrEnd, target, queue', seeds, marks0, done);
      done := done + PtrCells(g, v, s);
      if layout.totalCells == 0 { break; }
      s := s + layout.totalCells;
    }
    WalkStops(g, v, s, end);
    assert done == offered + all;
  }

  /** `scan_dirty_cards_as_roots` in Mark mode. */
  method MarkDirtyCards(h: PageHeap, target: Generation, scan: Option<seq<PageDesc>>, queue: seq<nat>,
                        ghost seeds: set<nat>, ghost marks0: seq<bool>) returns (queue': seq<nat>)
    requires MarkReady(h, target)
    requires scan.Some? ==> |scan.value| == h.nPages
    requires Offering(h.Geo(), h.V(), target, seeds, marks0, h.markTable.Map(), queue, {})
    requires CellsSeeded(h.Geo(), h.V(), target, CardRoots(h.Geo(), h.V(), h.cards[..], scan, target), seeds)
    modifies h.markTable.bits
    ensures h.Valid()
    ensures Offering(h.Geo(), h.V(), target, seeds, marks0, h.markTable.Map(), queue',
                     CardRoots(h.Geo(), h.V(), h.cards[..], scan, target))
  {
    hide GeoOk, Starts, Marks, Offering, Follows, CellsSeeded, VisitedBy, CardVisits, ConsPagesOk, HeapOk, NoLarge,
      KindsOk;
    queue' := queue;
    if scan.None? { return; }
    ghost var g, v, cards := h.Geo(), h.V(), h.cards[..];
    var snapshot := scan.value;
    NoneVisited(g, v, cards, snapshot, target);
    for k := 0 to h.cards.Length
      invariant h.Valid() && h.V() == v
      invariant Offering(g, v, target, seeds, marks0, h.markTable.Map(), queue',
          VisitedBy(g, v, cards, snapshot, target, k))
    {
      VisitedStep(g, v, cards, snapshot, target, k);
      assert VisitedBy(g, v, cards, snapshot, target, k) + {} == VisitedBy(g, v, cards, snapshot, target, k);
      if !h.cards[k] { continue; }
      var gen := snapshot[k / CARDS_PER_PAGE].generation;
      if gen == Free || gen == target { continue; }
      CardSeeded(g, v, cards, snapshot, target, seeds, k);
      queue' := MarkCardCells(h, k, target, queue', seeds, marks0, VisitedBy(g, v, cards, snapshot, target, k));
    }
  }

  lemma CardSeeded(g: Geometry, v: View, cards: seq<bool>, snapshot: seq<PageDesc>, target: Generation,
                   seeds: set<nat>, k: nat)
    requires Shaped(g, v) && k < CARDS_PER_PAGE * g.nPages && CardScanned(cards, snapshot, target, k)
    requires CellsSeeded(g, v, target, VisitedBy(g, v, cards, snapshot, target, CARDS_PER_PAGE * g.nPages), seeds)
    ensures CellsSeeded(g, v, target, CardVisits(g, v, k), seeds)
  {
    hide CardVisits, CellsSeeded;
    SeededPart(g, v, target, VisitedBy(g, v, cards, snapshot, target, CARDS_PER_PAGE * g.nPages), CardVisits(g, v, k),
      seeds);
  }

  /** What the given words lead to is marked. */
  ghost predicate WordsMarked(g: Geometry, v: View, target: Generation, words: seq<u64>, marks: seq<bool>) {
    forall j | 0 <= j < |words| :: ChildMarked(g, v, target, words[j], marks)
  }

  lemma WordsStillMarked(g: Geometry, v: View, target: Generation, words: seq<u64>, marks: seq<bool>, marks': seq<bool>)
    requires WordsMarked(g, v, target, words, marks) && MarkedObjs(v, target, marks) <= MarkedObjs(v, target, marks')
    ensures WordsMarked(g, v, target, words, marks')
  {
    hide Follows, MarkedObjs;
  }

  /** The caller's root slots in Mark mode. */
  method MarkRoots(h: PageHeap, target: Generation, roots: array<u64>, ghost seeds: set<nat>) returns (queue: seq<nat>)
    requires MarkReady(h, target) && roots != h.markTable.bits
    requires NoMarksIn(h.V(), target, h.markTable.Map())
    requires SeedCells(h.Geo(), h.V(), target, WordsOf(roots[..])) <= seeds
    modifies h.markTable.bits
    ensures h.Valid()
    ensures Drained(h.Geo(), h.V(), target, seeds, old(h.markTable.Map()), h.markTable.Map(), queue)
    ensures WordsMarked(h.Geo(), h.V(), target, roots[..], h.markTable.Map())
  {
    hide GeoOk, Starts, Marks, Follows, SeedCells, NoMarksIn, HeapOk, NoLarge, KindsOk, ConsPagesOk, Drained,
      WordsMarked, Offered, Lawful, ChildMarked, MarkedObjs;
    ghost var g, v, marks0, words := h.Geo(), h.V(), h.markTable.Map(), roots[..];
    FreshMarks(g, v, target, seeds, marks0);
    queue := [];
    assert WordsMarked(g, v, target, words[..0], marks0) by { NoWords(g, v, target, words, marks0); }
    for i := 0 to roots.Length
      invariant h.Valid() && h.V() == v && roots[..] == words
      invariant Drained(g, v, target, seeds, marks0, h.markTable.Map(), queue)
      invariant WordsMarked(g, v, target, words[..i], h.markTable.Map())
    {
      ghost var marks1, queue1 := h.markTable.Map(), queue;
      queue := MarkVisitSlot(h, roots[i], target, queue);
      RootSeed(g, v, target, words, seeds, i);
      OfferSeed(g, v, target, seeds, roots[i], marks0, marks1, queue1, h.markTable.Map(), queue);
      OneMoreWord(g, v, target, words, i, marks1, h.markTable.Map());
    }
    assert words[..roots.Length] == words;
  }

  lemma NoWords(g: Geometry, v: View, target: Generation, words: seq<u64>, marks: seq<bool>)
    ensures WordsMarked(g, v, target, words[..0], marks)
  {
  }

  lemma OneMoreWord(g: Geometry, v: View, target: Generation, words: seq<u64>, i: nat, marks: seq<bool>,
                    marks': seq<bool>)
    requires i < |words| && WordsMarked(g, v, target, words[..i], marks) && ChildMarked(g, v, target, words[i], marks')
    requires MarkedObjs(v, target, marks) <= MarkedObjs(v, target, marks')
    ensures WordsMarked(g, v, target, words[..i + 1], marks')
  {
    hide Follows, MarkedObjs, ChildMarked;
    WordsStillMarked(g, v, target, words[..i], marks, marks');
    var more := words[..i + 1];
    forall j | 0 <= j < |more| ensures ChildMarked(g, v, target, more[j], marks') {
      if j < i { assert more[j] == words[..i][j]; }
    }
  }

  lemma RootSeed(g: Geometry, v: View, target: Generation, words: seq<u64>, seeds: set<nat>, i: nat)
    requires i < |words| && SeedCells(g, v, target, WordsOf(words)) <= seeds
    ensures Follows(g, v, target, words[i]) ==> CellOf(g, words[i]) in seeds
  {
    SeedOf(g, v, target, WordsOf(words), words[i]);
  }

  // -- Pins -----------------------------------------------------------------

  /** `w` is `v` except for pin bytes. */
  ghost predicate PinBytesOnly(v: View, w: View) {
    && w.cells == v.cells && w.starts == v.starts && |w.descs| == |v.descs|
    && forall p | 0 <= p < |v.descs| :: w.descs[p] == v.descs[p].(pinByte := w.descs[p].pinByte)
  }

  /** The pages that carry a pin byte are those that did and those with a cell of `pins`. */
  ghost predicate PinnedBy(v: View, w: View, pins: set<nat>) {
    && |w.descs| == |v.descs|
    && forall p | 0 <= p < |v.descs| :: w.descs[p].HasPins() <==> v.descs[p].HasPins() || p in PagesOf(pins)
  }

  lemma PinnedPagesCarry(v: View, pins: set<nat>)
    requires PinsOk(v, pins)
    ensures PinnedBy(v, v, pins)
  {
    hide IsObj, Bit;
    forall p | p in PagesOf(pins) && p < |v.descs| ensures v.descs[p].HasPins() {
      var c :| c in pins && c / PAGE_CELLS == p;
      PinBits(v.descs[p], 0, PinSlot(c));
    }
  }

  /** The explicit-pin loop of `apply_pins_and_extend_mark`. */
  method ApplyExplicitPins(h: PageHeap)
    requires h.Inv() && PinsOk(h.V(), h.pinnedCells) && forall s | s in h.explicitPins :: IsObj(h.V(), s)
    modifies h`descs, h`pinnedCells
    ensures h.Inv() && PinBytesOnly(old(h.V()), h.V())
    ensures h.pinnedCells == old(h.pinnedCells) + h.explicitPins.Keys
    ensures PinsOk(h.V(), h.pinnedCells) && PinnedBy(old(h.V()), h.V(), h.pinnedCells)
    ensures h.explicitPins.Keys == {} ==> h.V() == old(h.V())
  {
    hide Starts, GeoOk, MemoryOk, PagesOk, RegionsOk, PinsOk, WellPaired, PinBytesOnly, IsObj, PagesOf;
    ghost var v := h.V();
    var rest := h.explicitPins.Keys;
    ghost var done: set<nat> := {};
    SamePinBytes(v);
    PinnedPagesCarry(v, h.pinnedCells);
    assert h.pinnedCells + {} == h.pinnedCells;
    while rest != {}
      invariant done + rest == h.explicitPins.Keys
      invariant h.Inv() && PinBytesOnly(v, h.V())
      invariant h.pinnedCells == old(h.pinnedCells) + done
      invariant PinsOk(h.V(), h.pinnedCells) && PinnedBy(v, h.V(), h.pinnedCells)
      invariant done == {} ==> h.V() == v
      decreases rest
    {
      var c :| c in rest;
      rest := rest - {c};
      ghost var w := h.V();
      PinTarget(v, w, c);
      if h.descs[c / PAGE_CELLS].generation != Free {
        h.pinnedCells := h.pinnedCells + {c};
        h.descs := h.descs[c / PAGE_CELLS := h.descs[c / PAGE_CELLS].SetPin(PinSlot(c))];
      }
      PinSet(v, w, h.V(), old(h.pinnedCells) + done, c);
      PinnedMore(v, w, h.V(), old(h.pinnedCells) + done, c);
      PinTables(w, h.V(), h.committed, h.freeList, h.highWater, h.regions);
      done := done + {c};
    }
    assert done == h.explicitPins.Keys;
  }

  lemma SamePinBytes(v: View)
    ensures PinBytesOnly(v, v)
  {
  }

  lemma PinTarget(v: View, w: View, c: nat)
    requires PinBytesOnly(v, w) && IsObj(v, c)
    ensures IsObj(w, c) && c / PAGE_CELLS < |w.descs| && GenAt(w, c) != Free
    ensures w.descs[c / PAGE_CELLS].generation != Free
  {
  }

  lemma PinSet(v: View, w: View, w': View, pins: set<nat>, c: nat)
    requires PinBytesOnly(v, w) && PinsOk(w, pins) && IsObj(w, c)
    requires w' == w.(descs := w.descs[c / PAGE_CELLS := w.descs[c / PAGE_CELLS].SetPin(PinSlot(c))])
    ensures PinBytesOnly(v, w') && PinBytesOnly(w, w') && PinsOk(w', pins + {c})
  {
    hide Bit, Or;
    forall x | x in pins + {c} ensures IsObj(w', x) && w'.descs[x / PAGE_CELLS].IsPinned(PinSlot(x)) {
      PinBits(w.descs[c / PAGE_CELLS], PinSlot(c), PinSlot(x));
    }
  }

  lemma PinnedMore(v: View, w: View, w': View, pins: set<nat>, c: nat)
    requires PinnedBy(v, w, pins) && c / PAGE_CELLS < |w.descs| && |w'.descs| == |w.descs|
    requires forall p | 0 <= p < |w.descs| && p != c / PAGE_CELLS :: w'.descs[p] == w.descs[p]
    requires PinsOk(w', pins + {c})
    ensures PinnedBy(v, w', pins + {c})
  {
    PinnedPagesCarry(w', pins + {c});
    assert c in pins + {c} && c / PAGE_CELLS in PagesOf(pins + {c});
    forall p ensures p in PagesOf(pins + {c}) <==> p in PagesOf(pins) || p == c / PAGE_CELLS {
      if p in PagesOf(pins) {
        var x :| x in pins && x / PAGE_CELLS == p;
        assert x in pins + {c};
      }
    }
  }

  lemma PinTables(v: View, w: View, committed: seq<bool>, freeList: seq<nat>, highWater: nat, regions: seq<AllocRegion>)
    requires PinBytesOnly(v, w) && |v.descs| == |committed| && |regions| == 6
    requires PagesOk(v.descs, committed, freeList, highWater) && RegionsOk(v.descs, regions) && MemoryOk(v, committed)
    ensures PagesOk(w.descs, committed, freeList, highWater) && RegionsOk(w.descs, regions) && MemoryOk(w, committed)
  {
    forall i | 0 <= i < 6 && regions[i].currentPage.Some?
      ensures RegionOk(w.descs, regions[i], RegionGen(i), RegionKind(i)) {
      assert RegionOk(v.descs, regions[i], RegionGen(i), RegionKind(i));
    }
    forall c | 0 <= c < |w.cells| ensures CellZeroIfUnused(w, committed, c) {
      assert CellZeroIfUnused(v, committed, c);
    }
    forall c | 0 <= c < |w.starts| && IsObj(w, c)
      ensures c % PAGE_CELLS < w.descs[c / PAGE_CELLS].wordsUsed
              && (w.descs[c / PAGE_CELLS].kind == Cons ==> w.starts[c] == ConsStart)
    {
      assert IsObj(v, c);
    }
  }

  /** Setting pin bytes does not disturb a mark in progress. */
  lemma MarkSurvivesPins(g: Geometry, v: View, w: View, target: Generation, seeds: set<nat>, marks0: seq<bool>,
                         marks: seq<bool>)
    requires PinBytesOnly(v, w) && Drained(g, v, target, seeds, marks0, marks, [])
    ensures Drained(g, w, target, seeds, marks0, marks, [])
    ensures MarkedObjs(w, target, marks) == MarkedObjs(v, target, marks)
  {
    assert MarkedObjs(w, target, marks) == MarkedObjs(v, target, marks);
    assert MarkedObjs(w, target, marks0) == MarkedObjs(v, target, marks0);
    forall s: nat, t: nat ensures Edge(g, w, target, s, t) <==> Edge(g, v, target, s, t) {
      SameEdges(g, v, w, target, s, t);
    }
    forall c: nat | Reachable(g, v, target, seeds, c) ensures Reachable(g, w, target, seeds, c) {
      var path :| IsPath(g, v, target, seeds, path) && path[|path| - 1] == c;
      assert IsPath(g, w, target, seeds, path);
    }
  }

  lemma SameEdges(g: Geometry, v: View, w: View, target: Generation, s: nat, t: nat)
    requires PinBytesOnly(v, w)
    ensures Edge(g, w, target, s, t) <==> Edge(g, v, target, s, t)
  {
    forall i: nat ensures EdgeAt(g, w, target, s, i, t) <==> EdgeAt(g, v, target, s, i, t) {
      if s < |v.starts| && s + i < |v.cells| { SameFollows(g, v, w, target, v.cells[s + i]); }
    }
  }

  lemma SameFollows(g: Geometry, v: View, w: View, target: Generation, word: u64)
    requires PinBytesOnly(v, w)
    ensures Follows(g, w, target, word) <==> Follows(g, v, target, word)
  {
  }

  /** `extend_mark_from_pinned`: the pinned objects of `target` are roots. */
  method ExtendMarkFromPinned(h: PageHeap, target: Generation, ghost seeds: set<nat>)
    requires MarkReady(h, target) && forall s | s in h.pinnedCells :: IsObj(h.V(), s)
    requires Drained(h.Geo(), h.V(), target, seeds, h.markTable.Map(), h.markTable.Map(), [])
    requires PinsIn(h.V(), h.pinnedCells, target) <= seeds
    modifies h.markTable.bits
    ensures h.Valid()
    ensures Drained(h.Geo(), h.V(), target, seeds, old(h.markTable.Map()), h.markTable.Map(), [])
    ensures PinsIn(h.V(), h.pinnedCells, target) <= MarkedObjs(h.V(), target, h.markTable.Map())
  {
    hide GeoOk, Starts, Marks, Drained, HeapOk, NoLarge, KindsOk, ConsPagesOk, MarkedObjs, Lawful, PinsIn;
    ghost var g, v, marks0 := h.Geo(), h.V(), h.markTable.Map();
    var rest := h.pinnedCells;
    var queue: seq<nat> := [];
    ghost var done: set<nat> := {};
    PinNone(v, target);
    while rest != {}
      invariant h.Valid() && h.V() == v && done + rest == h.pinnedCells
      invariant Drained(g, v, target, seeds, marks0, h.markTable.Map(), queue)
      invariant PinsIn(v, done, target) <= MarkedObjs(v, target, h.markTable.Map())
      decreases rest
    {
      var c :| c in rest;
      rest := rest - {c};
      ghost var marks := h.markTable.Map();
      PinNext(v, done, target, c);
      PinKind(h.descs, v, c);
      var isStart := h.startTable.IsStart(c);
      if h.descs[c / PAGE_CELLS].generation == target && h.descs[c / PAGE_CELLS].kind != Unassigned && isStart {
        PinIsSeed(v, h.pinnedCells, target, c);
        var seen := h.markTable.MarkCell(c);
        if seen {
          assert marks[c := true] == marks;
          AlreadyMarked(v, target, marks, c);
        } else {
          MarkSeed(g, v, target, seeds, c, marks0, marks, queue);
          queue := queue + [c];
        }
      }
      done := done + {c};
    }
    assert done == h.pinnedCells;
    ghost var marks1 := h.markTable.Map();
    DrainedFacts(g, v, target, seeds, marks0, marks1, queue);
    PageMarkerDrain(h, target, queue, seeds);
    DrainedTrans(g, v, target, seeds, marks0, marks1, queue, h.markTable.Map(), []);
  }

  lemma PinNone(v: View, target: Generation)
    ensures PinsIn(v, {}, target) == {}
  {
  }

  lemma PinNext(v: View, done: set<nat>, target: Generation, c: nat)
    requires IsObj(v, c)
    ensures PinsIn(v, done + {c}, target) == PinsIn(v, done, target) + (if GenAt(v, c) == target then {c} else {})
  {
  }

  lemma PinKind(descs: seq<PageDesc>, v: View, c: nat)
    requires IsObj(v, c) && descs == v.descs && KindsOk(descs)
    ensures descs[c / PAGE_CELLS].kind != Unassigned && v.starts[c] != NoStart
  {
  }

  lemma PinIsSeed(v: View, pins: set<nat>, target: Generation, c: nat)
    requires c in pins && IsObj(v, c) && GenAt(v, c) == target
    ensures c in PinsIn(v, pins, target)
  {
  }

  lemma AlreadyMarked(v: View, target: Generation, marks: seq<bool>, c: nat)
    requires IsObj(v, c) && GenAt(v, c) == target && c < |marks| && marks[c]
    ensures c in MarkedObjs(v, target, marks)
  {
  }

  lemma DrainedFacts(g: Geometry, v: View, target: Generation, seeds: set<nat>, marks0: seq<bool>, marks: seq<bool>,
                     queue: seq<nat>)
    requires Drained(g, v, target, seeds, marks0, marks, queue)
    ensures MarkInv(g, v, target, marks, queue) && MarkSound(g, v, target, seeds, marks)
    ensures MarkedObjs(v, target, marks0) <= MarkedObjs(v, target, marks)
  {
  }

  lemma DrainedTrans(g: Geometry, v: View, target: Generation, seeds: set<nat>, marks0: seq<bool>,
                     marks1: seq<bool>, queue1: seq<nat>, marks2: seq<bool>, queue2: seq<nat>)
    requires Drained(g, v, target, seeds, marks0, marks1, queue1)
    requires Drained(g, v, target, seeds, marks1, marks2, queue2)
    ensures Drained(g, v, target, seeds, marks0, marks2, queue2)
    ensures MarkedObjs(v, target, marks1) <= MarkedObjs(v, target, marks2)
  {
    hide MarkInv, MarkSound, MarkedObjs;
    DrainTrans(v, target, marks0, marks1, marks2);
  }

  /** Offers the cells `[lo, hi)` as `PageMarker` does. */
  method OfferRange(h: PageHeap, lo: nat, hi: nat, target: Generation, queue: seq<nat>, ghost seeds: set<nat>,
                    ghost marks0: seq<bool>, ghost offered: set<nat>) returns (queue': seq<nat>)
    requires h.Valid() && NoLarge(h.V()) && target != Free && KindsOk(h.descs)
    requires Offering(h.Geo(), h.V(), target, seeds, marks0, h.markTable.Map(), queue, offered)
    requires CellsSeeded(h.Geo(), h.V(), target, Range(lo, hi), seeds)
    modifies h.markTable.bits
    ensures h.Valid()
    ensures Offering(h.Geo(), h.V(), target, seeds, marks0, h.markTable.Map(), queue', offered + Range(lo, hi))
  {
    hide GeoOk, Starts, Marks, Offering, Follows, CellsSeeded, Offered, NoLarge, KindsOk;
    ghost var g, v := h.Geo(), h.V();
    queue' := queue;
    var c := lo;
    assert offered + Range(lo, lo) == offered;
    while c < hi
      invariant lo <= c && (c <= hi || c == lo)
      invariant h.Valid() && h.V() == v
      invariant Offering(g, v, target, seeds, marks0, h.markTable.Map(), queue', offered + Range(lo, c))
    {
      ghost var marks1, queue1 := h.markTable.Map(), queue';
      SeededCell(g, v, target, Range(lo, hi), seeds, c) by { assert Between(lo, c, hi); }
      queue' := TryMarkRoot(h, h.cells[c], target, queue');
      OfferCell(g, v, target, seeds, marks0, marks1, queue1, h.markTable.Map(), queue', offered + Range(lo, c), c);
      assert offered + Range(lo, c) + {c} == offered + Range(lo, c + 1);
      c := c + 1;
    }
    assert offered + Range(lo, c) == offered + Range(lo, hi);
  }

  /** `extend_mark_from_cross_gen_pinned`: what pinned objects of other generations point to is kept. */
  method ExtendMarkFromCrossGenPinned(h: PageHeap, target: Generation, ghost seeds: set<nat>)
    requires MarkReady(h, target) && forall s | s in h.pinnedCells :: IsObj(h.V(), s)
    requires Drained(h.Geo(), h.V(), target, seeds, h.markTable.Map(), h.markTable.Map(), [])
    requires CellsSeeded(h.Geo(), h.V(), target, CrossPinPtrs(h.Geo(), h.V(), h.pinnedCells, target), seeds)
    modifies h.markTable.bits
    ensures h.Valid()
    ensures Drained(h.Geo(), h.V(), target, seeds, old(h.markTable.Map()), h.markTable.Map(), [])
    ensures CellsMarked(h.Geo(), h.V(), target, CrossPinPtrs(h.Geo(), h.V(), h.pinnedCells, target), h.markTable.Map())
  {
    hide GeoOk, Starts, Marks, Drained, HeapOk, NoLarge, KindsOk, ConsPagesOk, MarkedObjs, Lawful, CrossPinPtrs,
      Offering, CellsSeeded, CellsMarked, PtrCells, IsObj;
    ghost var g, v, marks0 := h.Geo(), h.V(), h.markTable.Map();
    var rest := h.pinnedCells;
    var queue: seq<nat> := [];
    ghost var done: set<nat> := {};
    CrossNone(g, v, target, seeds, marks0);
    while rest != {}
      invariant h.Valid() && h.V() == v && done + rest == h.pinnedCells
      invariant Offering(g, v, target, seeds, marks0, h.markTable.Map(), queue, CrossPinPtrs(g, v, done, target))
      decreases rest
    {
      var c :| c in rest;
      rest := rest - {c};
      CrossNext(g, v, done, target, c);
      assert CrossPinPtrs(g, v, done, target) + {} == CrossPinPtrs(g, v, done, target);
      PinPage(h.descs, v, c);
      var isStart := h.startTable.IsStart(c);
      if h.descs[c / PAGE_CELLS].generation != target && h.descs[c / PAGE_CELLS].generation != Free
        && h.descs[c / PAGE_CELLS].kind != Unassigned && isStart {
        var isCons := h.startTable.IsConsStart(c);
        var layout := if isCons then ObjectLayout(2, 0, 2) else h.layout.headerLayout(h.cells[c]);
        PtrRange(g, v, c);
        CrossPart(g, v, h.pinnedCells, target, c);
        SeededPart(g, v, target, CrossPinPtrs(g, v, h.pinnedCells, target), PtrCells(g, v, c), seeds);
        queue := OfferRange(h, c + layout.ptrStart, c + layout.ptrEnd, target, queue, seeds, marks0, CrossPinPtrs(g, v,
          done, target));
      }
      done := done + {c};
    }
    assert done == h.pinnedCells;
    ghost var marks1 := h.markTable.Map();
    OfferedFacts(g, v, target, seeds, marks0, marks1, queue, CrossPinPtrs(g, v, done, target));
    PageMarkerDrain(h, target, queue, seeds);
    DrainedTrans(g, v, target, seeds, marks0, marks1, queue, h.markTable.Map(), []);
    StillMarked(g, v, target, CrossPinPtrs(g, v, done, target), marks1, h.markTable.Map());
  }

  lemma PinPage(descs: seq<PageDesc>, v: View, c: nat)
    requires IsObj(v, c) && descs == v.descs && KindsOk(descs)
    ensures c < |v.starts| && c / PAGE_CELLS < |descs| && descs[c / PAGE_CELLS].kind != Unassigned
    ensures v.starts[c] != NoStart && descs[c / PAGE_CELLS].generation != Free
  {
  }

  lemma CrossNone(g: Geometry, v: View, target: Generation, seeds: set<nat>, marks: seq<bool>)
    requires Shaped(g, v) && Drained(g, v, target, seeds, marks, marks, [])
    ensures Offering(g, v, target, seeds, marks, marks, [], CrossPinPtrs(g, v, {}, target))
  {
    hide Drained;
  }

  lemma CrossNext(g: Geometry, v: View, done: set<nat>, target: Generation, c: nat)
    requires Shaped(g, v) && IsObj(v, c)
    ensures CrossPinPtrs(g, v, done + {c}, target) ==
            CrossPinPtrs(g, v, done, target) + (if GenAt(v, c) != target then PtrCells(g, v, c) else {})
  {
    hide PtrCells;
    forall x ensures x in CrossPinPtrs(g, v, done + {c}, target) <==>
      x in CrossPinPtrs(g, v, done, target) + (if GenAt(v, c) != target then PtrCells(g, v, c) else {})
    {
    }
  }

  lemma CrossPart(g: Geometry, v: View, pins: set<nat>, target: Generation, c: nat)
    requires Shaped(g, v) && IsObj(v, c) && c in pins && GenAt(v, c) != target
    ensures PtrCells(g, v, c) <= CrossPinPtrs(g, v, pins, target)
  {
    hide PtrCells;
  }

  lemma OfferedFacts(g: Geometry, v: View, target: Generation, seeds: set<nat>, marks0: seq<bool>, marks: seq<bool>,
                     queue: seq<nat>, offered: set<nat>)
    requires Offering(g, v, target, seeds, marks0, marks, queue, offered)
    ensures Drained(g, v, target, seeds, marks0, marks, queue) && CellsMarked(g, v, target, offered, marks)
    ensures MarkInv(g, v, target, marks, queue) && MarkSound(g, v, target, seeds, marks)
  {
  }

  // -- The whole mark -------------------------------------------------------

  /** The per-page live counts of the pages of `target`, zero elsewhere. */
  ghost predicate CountsExact(descs: seq<PageDesc>, target: Generation, marks: seq<bool>, counts: seq<nat>)
    requires |marks| == PAGE_CELLS * |descs|
  {
    && |counts| == |descs|
    && forall p | 0 <= p < |descs| :: counts[p] == if descs[p].generation == target
         then CountTrue(marks[PAGE_CELLS * p..PAGE_CELLS * (p + 1)]) else 0
  }

  lemma CountsSansPins(v: View, w: View, target: Generation, marks: seq<bool>, counts: seq<nat>)
    requires |marks| == PAGE_CELLS * |v.descs| && PinBytesOnly(v, w) && CountsExact(v.descs, target, marks, counts)
    ensures CountsExact(w.descs, target, marks, counts)
  {
    hide CountTrue;
  }

  /** `prepare_recycle_live_counts_from_marks`. */
  method PrepareLiveCounts(h: PageHeap, target: Generation)
    requires h.Valid()
    modifies h`liveCounts, h`liveTarget
    ensures h.Valid() && h.liveTarget == Some(target)
    ensures CountsExact(h.descs, target, h.markTable.Map(), h.liveCounts)
  {
    hide Starts, GeoOk, Marks, CountTrue;
    h.liveCounts := seq(h.nPages, _ => 0);
    for p := 0 to h.nPages
      invariant h.Valid() && |h.liveCounts| == h.nPages
      invariant forall q | 0 <= q < h.nPages :: h.liveCounts[q] == if q < p && h.descs[q].generation == target
        then CountTrue(h.markTable.Map()[PAGE_CELLS * q..PAGE_CELLS * (q + 1)]) else 0
    {
      if h.descs[p].generation == target {
        var count := h.markTable.CountPage(p);
        h.liveCounts := h.liveCounts[p := count];
      }
    }
    h.liveTarget := Some(target);
  }

  lemma {:induction false} SameWalk(g: Geometry, v: View, w: View, s: nat, end: nat)
    requires end <= |v.starts| == |v.cells| && w.cells == v.cells && w.starts == v.starts
    ensures WalkVisits(g, w, s, end) == WalkVisits(g, v, s, end)
    decreases end - s
  {
    if s < end && v.starts[s] != NoStart {
      assert PtrCells(g, w, s) == PtrCells(g, v, s) by {
        forall c: nat ensures PtrCellOf(g, w, s, c) <==> PtrCellOf(g, v, s, c) {}
      }
      if SizeOf(g, v, s) != 0 { SameWalk(g, v, w, s + SizeOf(g, v, s), end); }
    }
  }

  /** Nor do pin bytes matter to what a pass visits or starts from. */
  lemma SameSeeds(g: Geometry, v: View, w: View, target: Generation, roots: seq<u64>, cards: seq<bool>,
                  scan: Option<seq<PageDesc>>, pins: set<nat>)
    requires Shaped(g, v) && Shaped(g, w) && PinBytesOnly(v, w)
    ensures CardRoots(g, w, cards, scan, target) == CardRoots(g, v, cards, scan, target)
    ensures EvacSeeds(g, w, target, roots, CardRoots(g, w, cards, scan, target), pins) ==
            EvacSeeds(g, v, target, roots, CardRoots(g, v, cards, scan, target), pins)
  {
    hide WalkVisits, PtrCells, WalkStart;
    forall k: nat | k < CARDS_PER_PAGE * g.nPages ensures CardVisits(g, w, k) == CardVisits(g, v, k) {
      SameWalk(g, v, w, WalkStart(v.starts, CARD_CELLS * k, CARD_CELLS * (k + 1)), CARD_CELLS * (k + 1));
    }
    assert CardRoots(g, w, cards, scan, target) == CardRoots(g, v, cards, scan, target) by { hide CardVisits; }
    hide CardRoots;
    SameCross(g, v, w, target, pins);
    forall words ensures SeedCells(g, w, target, words) == SeedCells(g, v, target, words) {
      SameSeedCells(g, v, w, target, words);
    }
    hide CrossPinPtrs, SeedCells;
    assert PinsIn(w, pins, target) == PinsIn(v, pins, target);
    assert WordsAt(w, CrossPinPtrs(g, w, pins, target)) == WordsAt(v, CrossPinPtrs(g, v, pins, target));
    assert WordsAt(w, CardRoots(g, w, cards, scan, target)) == WordsAt(v, CardRoots(g, v, cards, scan, target));
  }

  lemma SameSeedCells(g: Geometry, v: View, w: View, target: Generation, words: set<u64>)
    requires PinBytesOnly(v, w)
    ensures SeedCells(g, w, target, words) == SeedCells(g, v, target, words)
  {
    forall word ensures Follows(g, w, target, word) <==> Follows(g, v, target, word) {
      SameFollows(g, v, w, target, word);
    }
    hide Follows;
  }

  lemma SameCross(g: Geometry, v: View, w: View, target: Generation, pins: set<nat>)
    requires Shaped(g, v) && Shaped(g, w) && PinBytesOnly(v, w)
    ensures CrossPinPtrs(g, w, pins, target) == CrossPinPtrs(g, v, pins, target)
  {
    forall s: nat | s < |v.starts| ensures PtrCells(g, w, s) == PtrCells(g, v, s) {
      forall c: nat ensures PtrCellOf(g, w, s, c) <==> PtrCellOf(g, v, s, c) {}
    }
    hide PtrCells;
    forall x ensures x in CrossPinPtrs(g, w, pins, target) <==> x in CrossPinPtrs(g, v, pins, target) {
    }
  }

  /** The marked objects of `target` are exactly those the pass must keep. */
  ghost predicate MarkedExactly(g: Geometry, v: View, target: Generation, seeds: set<nat>, marks: seq<bool>) {
    && MarkInv(g, v, target, marks, []) && seeds <= MarkedObjs(v, target, marks)
    && forall c: nat :: c in MarkedObjs(v, target, marks) <==> Reachable(g, v, target, seeds, c)
  }

  /** Where a mark of `target` may run: on a well-formed heap, with sound pins. */
  ghost predicate PassReady(h: PageHeap, target: Generation)
    reads h, h.cells, h.startTable.bits, h.cards
  {
    && h.Inv() && HeapOk(h.Geo(), h.V()) && NoLarge(h.V()) && target != Free
    && PinsOk(h.V(), h.pinnedCells) && (forall s | s in h.explicitPins :: IsObj(h.V(), s))
  }

  lemma PassMarkReady(h: PageHeap, target: Generation)
    requires PassReady(h, target)
    ensures MarkReady(h, target)
  {
    hide Starts;
  }

  lemma PinnedObjects(v: View, pins: set<nat>)
    requires PinsOk(v, pins)
    ensures forall s | s in pins :: IsObj(v, s)
  {
  }

  lemma ReadyAfterPins(g: Geometry, v: View, w: View)
    requires PinBytesOnly(v, w) && HeapOk(g, v) && NoLarge(v)
    ensures HeapOk(g, w) && NoLarge(w)
    ensures forall s: nat | s < |v.starts| && s / PAGE_CELLS < |v.descs| :: IsObj(w, s) <==> IsObj(v, s)
  {
    forall s: nat | s < |w.starts| && IsObj(w, s) ensures ObjOk(g, w, s) {
      assert IsObj(v, s) && ObjOk(g, v, s);
    }
  }

  /** The parts of the seed set. */
  lemma SeedParts(g: Geometry, v: View, target: Generation, roots: seq<u64>, visited: set<nat>, pins: set<nat>)
    requires Shaped(g, v) && forall c | c in visited :: c < |v.cells|
    requires HeapOk(g, v)
    ensures var seeds := EvacSeeds(g, v, target, roots, visited, pins);
      && SeedCells(g, v, target, WordsOf(roots)) <= seeds && PinsIn(v, pins, target) <= seeds
      && CellsSeeded(g, v, target, visited, seeds)
      && CellsSeeded(g, v, target, CrossPinPtrs(g, v, pins, target), seeds)
  {
    hide Follows, SeedCells, PinsIn, ObjOk;
    CrossFits(g, v, target, pins);
    SeededByCells(g, v, target, visited);
    SeededByCells(g, v, target, CrossPinPtrs(g, v, pins, target));
    hide CrossPinPtrs, WordsAt;
  }

  lemma CrossFits(g: Geometry, v: View, target: Generation, pins: set<nat>)
    requires HeapOk(g, v)
    ensures forall c | c in CrossPinPtrs(g, v, pins, target) :: c < |v.cells|
  {
    hide PtrCells;
    forall c | c in CrossPinPtrs(g, v, pins, target) ensures c < |v.cells| {
      var s :| s in pins && IsObj(v, s) && GenAt(v, s) != target && c in PtrCells(g, v, s);
      assert ObjOk(g, v, s);
      PtrOwner(g, v, s, c);
    }
  }

  lemma SeededByCells(g: Geometry, v: View, target: Generation, cells: set<nat>)
    requires forall c | c in cells :: c < |v.cells|
    ensures CellsSeeded(g, v, target, cells, SeedCells(g, v, target, WordsAt(v, cells)))
  {
    forall c | c in cells
      ensures Follows(g, v, target, v.cells[c]) ==>
                CellOf(g, v.cells[c]) in SeedCells(g, v, target, WordsAt(v, cells)) {
      SeedOf(g, v, target, WordsAt(v, cells), v.cells[c]);
    }
    hide Follows, SeedCells;
  }

  lemma VisitedFit(g: Geometry, v: View, cards: seq<bool>, scan: Option<seq<PageDesc>>, target: Generation)
    requires HeapOk(g, v)
    ensures forall c | c in CardRoots(g, v, cards, scan, target) :: c < |v.cells|
  {
    hide ObjOk, CardVisits;
    forall k: nat, c | k < CARDS_PER_PAGE * g.nPages && c in CardVisits(g, v, k) ensures c < |v.cells| {
      HeapCardWhole(g, v, k);
      CardVisitsPtrs(g, v, k, c);
    }
  }

  /** Seeds all offered, queue drained: the seeds themselves are marked. */
  lemma SeedsCovered(g: Geometry, v: View, target: Generation, roots: seq<u64>, visited: set<nat>, pins: set<nat>,
                     marks: seq<bool>)
    requires Shaped(g, v) && WordsMarked(g, v, target, roots, marks) && CellsMarked(g, v, target, visited, marks)
    requires PinsIn(v, pins, target) <= MarkedObjs(v, target, marks)
    requires CellsMarked(g, v, target, CrossPinPtrs(g, v, pins, target), marks)
    ensures EvacSeeds(g, v, target, roots, visited, pins) <= MarkedObjs(v, target, marks)
  {
    hide CrossPinPtrs, PinsIn, MarkedObjs;
    SeedsMarked(g, v, target, roots, marks);
    CellSeedsMarked(g, v, target, visited, marks);
    CellSeedsMarked(g, v, target, CrossPinPtrs(g, v, pins, target), marks);
    hide SeedCells, Follows;
    assert WordsOf(roots) == set i | 0 <= i < |roots| :: roots[i];
  }

  lemma CellSeedsMarked(g: Geometry, v: View, target: Generation, cells: set<nat>, marks: seq<bool>)
    requires CellsMarked(g, v, target, cells, marks)
    ensures SeedCells(g, v, target, WordsAt(v, cells)) <= MarkedObjs(v, target, marks)
  {
    hide MarkedObjs;
  }

  /** The internal mark pass from roots and cards. */
  method InternalMark(h: PageHeap, target: Generation, roots: array<u64>, scan: Option<seq<PageDesc>>,
                      ghost seeds: set<nat>)
    requires PassReady(h, target) && roots != h.markTable.bits
    requires scan.Some? ==> |scan.value| == h.nPages
    requires SeedCells(h.Geo(), h.V(), target, WordsOf(roots[..])) <= seeds
    requires CellsSeeded(h.Geo(), h.V(), target, CardRoots(h.Geo(), h.V(), h.cards[..], scan, target), seeds)
    modifies h.markTable.bits
    ensures h.Valid()
    ensures Drained(h.Geo(), h.V(), target, seeds, h.markTable.Map(), h.markTable.Map(), [])
    ensures WordsMarked(h.Geo(), h.V(), target, roots[..], h.markTable.Map())
    ensures CellsMarked(h.Geo(), h.V(), target, CardRoots(h.Geo(), h.V(), h.cards[..], scan, target), h.markTable.Map())
    ensures MarksElsewhere(h.V(), target, old(h.markTable.Map()), h.markTable.Map())
  {
    hide GeoOk, Starts, Marks, Drained, HeapOk, NoLarge, KindsOk, ConsPagesOk, MarkedObjs, Lawful, CellsSeeded,
      CellsMarked, WordsMarked, CardRoots, SeedCells, NoMarksIn, MarksElsewhere, MarkInv, MarkSound, Offering;
    ghost var g, v, marks0 := h.Geo(), h.V(), h.markTable.Map();
    PassMarkReady(h, target);
    ClearMarkBitsInGen(h, target);
    ghost var cleared := h.markTable.Map();
    var queue := MarkRoots(h, target, roots, seeds);
    ghost var marks1, queue1 := h.markTable.Map(), queue;
    StartOffering(g, v, target, seeds, cleared, marks1, queue);
    queue := MarkDirtyCards(h, target, scan, queue, seeds, marks1);
    ghost var marks2, visited := h.markTable.Map(), CardRoots(g, v, h.cards[..], scan, target);
    OfferedFacts(g, v, target, seeds, marks1, marks2, queue, visited);
    MarkDrain(h, target, queue, seeds);
    ghost var marks3 := h.markTable.Map();
    DrainedTrans(g, v, target, seeds, marks1, marks2, queue, marks3, []);
    DrainedTrans(g, v, target, seeds, cleared, marks1, queue1, marks3, []);
    WordsStillMarked(g, v, target, roots[..], marks1, marks3);
    StillMarked(g, v, target, visited, marks2, marks3);
    DrainedElsewhere(g, v, target, seeds, marks0, cleared, marks3);
  }

  lemma DrainedElsewhere(g: Geometry, v: View, target: Generation, seeds: set<nat>, marks0: seq<bool>,
                         marks1: seq<bool>, marks: seq<bool>)
    requires MarksElsewhere(v, target, marks0, marks1) && Drained(g, v, target, seeds, marks1, marks, [])
    ensures MarksElsewhere(v, target, marks0, marks) && Drained(g, v, target, seeds, marks, marks, [])
  {
    hide MarkInv, MarkSound, MarkedObjs;
    DrainTrans(v, target, marks0, marks1, marks);
    assert MarksElsewhere(v, target, marks, marks);
  }

  lemma StartOffering(g: Geometry, v: View, target: Generation, seeds: set<nat>, marks0: seq<bool>, marks: seq<bool>,
                      queue: seq<nat>)
    requires Drained(g, v, target, seeds, marks0, marks, queue)
    ensures Offering(g, v, target, seeds, marks, marks, queue, {})
  {
    hide MarkInv, MarkSound, MarkedObjs;
  }

  lemma PassAfterPins(h: PageHeap, v: View, target: Generation)
    requires h.Inv() && PinBytesOnly(v, h.V()) && HeapOk(h.Geo(), v) && NoLarge(v) && target != Free
    requires PinsOk(h.V(), h.pinnedCells) && forall s | s in h.explicitPins :: IsObj(v, s)
    ensures PassReady(h, target)
  {
    hide Starts, PinsOk, MemoryOk, PagesOk, RegionsOk, HeapOk, NoLarge, GeoOk;
    ReadyAfterPins(h.Geo(), v, h.V());
  }

  /** Marks follow the pins: the extension of `apply_pins_and_extend_mark`. */
  method ExtendMark(h: PageHeap, target: Generation, ghost seeds: set<nat>)
    requires PassReady(h, target)
    requires Drained(h.Geo(), h.V(), target, seeds, h.markTable.Map(), h.markTable.Map(), [])
    requires PinsIn(h.V(), h.pinnedCells, target) <= seeds
    requires CellsSeeded(h.Geo(), h.V(), target, CrossPinPtrs(h.Geo(), h.V(), h.pinnedCells, target), seeds)
    modifies h.markTable.bits, h`liveCounts, h`liveTarget
    ensures h.Valid() && (h.liveTarget == old(h.liveTarget) || h.liveTarget == Some(target))
    ensures old(CountsExact(h.descs, target, h.markTable.Map(), h.liveCounts)) ==>
              CountsExact(h.descs, target, h.markTable.Map(), h.liveCounts)
    ensures Drained(h.Geo(), h.V(), target, seeds, old(h.markTable.Map()), h.markTable.Map(), [])
    ensures PinsIn(h.V(), h.pinnedCells, target) <= MarkedObjs(h.V(), target, h.markTable.Map())
    ensures CellsMarked(h.Geo(), h.V(), target, CrossPinPtrs(h.Geo(), h.V(), h.pinnedCells, target), h.markTable.Map())
  {
    hide GeoOk, Starts, Marks, Drained, HeapOk, NoLarge, KindsOk, ConsPagesOk, MarkedObjs, Lawful, CellsSeeded,
      CellsMarked, PinsIn, CrossPinPtrs, MarkInv, MarkSound, IsObj;
    ghost var g, v, pins, marks0 := h.Geo(), h.V(), h.pinnedCells, h.markTable.Map();
    if h.pinnedCells == {} {
      NoPinSeeds(g, v, target, marks0);
      return;
    }
    PassMarkReady(h, target);
    PinnedObjects(v, pins);
    ExtendMarkFromPinned(h, target, seeds);
    ghost var marks1 := h.markTable.Map();
    DrainedHere(g, v, target, seeds, marks0, marks1);
    ExtendMarkFromCrossGenPinned(h, target, seeds);
    DrainedTrans(g, v, target, seeds, marks0, marks1, [], h.markTable.Map(), []);
    PrepareLiveCounts(h, target);
  }

  lemma DrainedHere(g: Geometry, v: View, target: Generation, seeds: set<nat>, marks0: seq<bool>, marks: seq<bool>)
    requires Drained(g, v, target, seeds, marks0, marks, [])
    ensures Drained(g, v, target, seeds, marks, marks, [])
  {
    hide MarkInv, MarkSound, MarkedObjs;
    assert MarksElsewhere(v, target, marks, marks);
  }

  lemma NoPinSeeds(g: Geometry, v: View, target: Generation, marks: seq<bool>)
    requires Shaped(g, v)
    ensures PinsIn(v, {}, target) == {} && CellsMarked(g, v, target, CrossPinPtrs(g, v, {}, target), marks)
  {
  }

  lemma PassShape(h: PageHeap, target: Generation)
    requires PassReady(h, target)
    ensures Shaped(h.Geo(), h.V()) && HeapOk(h.Geo(), h.V()) && GeoOk(h.Geo()) && |h.descs| == h.nPages
  {
    hide Starts;
  }

  /** The start of an evacuation: what is marked in `target` afterwards is exactly
      what the caller's roots, the dirty cards and the pins keep alive. */
  method MarkForPass(h: PageHeap, target: Generation, roots: array<u64>, scan: Option<seq<PageDesc>>)
    requires PassReady(h, target) && roots != h.markTable.bits && (scan.Some? ==> |scan.value| == h.nPages)
    modifies h.markTable.bits, h`descs, h`pinnedCells, h`liveCounts, h`liveTarget
    ensures PassReady(h, target) && PinBytesOnly(old(h.V()), h.V())
    ensures h.pinnedCells == old(h.pinnedCells) + h.explicitPins.Keys
    ensures h.liveTarget == Some(target) && CountsExact(h.descs, target, h.markTable.Map(), h.liveCounts)
    ensures h.pinnedCells == {} ==> h.V() == old(h.V())
    ensures PinnedBy(old(h.V()), h.V(), h.pinnedCells)
    ensures MarkedExactly(h.Geo(), h.V(), target,
              EvacSeeds(h.Geo(), h.V(), target, roots[..], CardRoots(h.Geo(), h.V(), h.cards[..], scan, target),
                  h.pinnedCells),
              h.markTable.Map())
  {
    hide GeoOk, Starts, Marks, Drained, HeapOk, NoLarge, KindsOk, ConsPagesOk, MarkedObjs, Lawful, CellsSeeded,
      CellsMarked, PinsIn, CrossPinPtrs, EvacSeeds, CardRoots, SeedCells, WordsMarked, PinBytesOnly, PinsOk, IsObj,
      MarksElsewhere, MemoryOk, PagesOk, RegionsOk, MarkedExactly, MarkInv, MarkSound;
    ghost var g, v := h.Geo(), h.V();
    PassShape(h, target);
    ghost var pins, visited := h.pinnedCells + h.explicitPins.Keys, CardRoots(g, v, h.cards[..], scan, target);
    ghost var seeds := EvacSeeds(g, v, target, roots[..], visited, pins);
    VisitedFit(g, v, h.cards[..], scan, target);
    SeedParts(g, v, target, roots[..], visited, pins);
    InternalMark(h, target, roots, scan, seeds);
    PrepareLiveCounts(h, target);
    ghost var marks := h.markTable.Map();
    ApplyExplicitPins(h);
    ghost var w := h.V();
    PassAfterPins(h, v, target);
    CountsSansPins(v, w, target, marks, h.liveCounts);
    MarkSurvivesPins(g, v, w, target, seeds, marks, marks);
    SameSeeds(g, v, w, target, roots[..], h.cards[..], scan, pins);
    VisitedFit(g, w, h.cards[..], scan, target);
    SeedParts(g, w, target, roots[..], visited, pins);
    WordsAfterPins(g, v, w, target, roots[..], marks);
    CellsAfterPins(g, v, w, target, visited, marks);
    ExtendMark(h, target, seeds);
    MarkComplete(g, w, target, roots[..], visited, pins, seeds, marks, h.markTable.Map());
  }

  lemma WordsAfterPins(g: Geometry, v: View, w: View, target: Generation, words: seq<u64>, marks: seq<bool>)
    requires PinBytesOnly(v, w) && WordsMarked(g, v, target, words, marks)
    requires MarkedObjs(w, target, marks) == MarkedObjs(v, target, marks)
    ensures WordsMarked(g, w, target, words, marks)
  {
    forall j | 0 <= j < |words| ensures ChildMarked(g, w, target, words[j], marks) {
      SameFollows(g, v, w, target, words[j]);
      assert ChildMarked(g, v, target, words[j], marks);
    }
  }

  lemma CellsAfterPins(g: Geometry, v: View, w: View, target: Generation, cells: set<nat>, marks: seq<bool>)
    requires PinBytesOnly(v, w) && CellsMarked(g, v, target, cells, marks)
    requires MarkedObjs(w, target, marks) == MarkedObjs(v, target, marks)
    ensures CellsMarked(g, w, target, cells, marks)
  {
    hide MarkedObjs;
    forall c | c in cells ensures c < |w.cells| && ChildMarked(g, w, target, w.cells[c], marks) {
      SameFollows(g, v, w, target, v.cells[c]);
    }
  }

  lemma MarkComplete(g: Geometry, v: View, target: Generation, roots: seq<u64>, visited: set<nat>, pins: set<nat>,
                     seeds: set<nat>, marks0: seq<bool>, marks: seq<bool>)
    requires Shaped(g, v) && seeds == EvacSeeds(g, v, target, roots, visited, pins)
    requires Drained(g, v, target, seeds, marks0, marks, [])
    requires WordsMarked(g, v, target, roots, marks0) && CellsMarked(g, v, target, visited, marks0)
    requires PinsIn(v, pins, target) <= MarkedObjs(v, target, marks)
    requires CellsMarked(g, v, target, CrossPinPtrs(g, v, pins, target), marks)
    ensures MarkedExactly(g, v, target, seeds, marks)
  {
    hide MarkedObjs, MarkInv, MarkSound, Reachable, EvacSeeds, PinsIn, CrossPinPtrs, CellsMarked, WordsMarked;
    WordsStillMarked(g, v, target, roots, marks0, marks);
    StillMarked(g, v, target, visited, marks0, marks);
    SeedsCovered(g, v, target, roots, visited, pins, marks);
    MarkExact(g, v, target, seeds, marks);
  }
}
