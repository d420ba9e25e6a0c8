/** Whole runs of a heap: pins and unpins, allocation by many mutators, stores, collections. */
module Runs {
  import opened Bits
  import opened Options
  import opened Bitmaps
  import opened Layouts
  import opened Pages
  import opened Objects
  import opened PageHeaps
  import opened Alloc
  import opened Copying
  import opened EvacMarking
  import opened Graphs
  import opened PassStates
  import opened Remembered
  import opened Cycles
  import opened Pins
  import opened Tlabs

  /** What may happen to a heap: `New` by a mutator's slab or, without one, from the central path;
      `header` is None for a cons. The collections come with the words of the stacks. */
  datatype Command =
    | DoPin(word: u64)
    | DoUnpin(handle: Option<nat>)
    | New(mutator: Option<nat>, gen: Generation, kind: PageKind, n: nat, header: Option<u64>)
    | Write(s: nat, i: nat, word: u64)
    | Flush(m: nat)
    | Register
    | Minor(words: seq<u64>)
    | Major(words: seq<u64>)
    | Full(words: seq<u64>)
  {
    predicate Collects() { Minor? || Major? || Full? }
  }

  /** The promotion counters. */
  datatype Counters = Counters(minors: nat, promotes: nat)

  function CountersOf(h: PageHeap): Counters
    reads h
  {
    Counters(h.minorsSinceG0Promote, h.g0PromotesSinceG1Promote)
  }

  /** Between commands: the heap is well-formed, its objects are those the mutators know of, every
      cross-generation pointer lies on a dirty card, and only explicit pins are recorded. */
  ghost predicate RunOk(h: PageHeap, ms: Mutators)
    reads h, h.cells, h.startTable.bits, h.cards, ms, ms.heap, ms.heap.cells, ms.heap.startTable.bits, ms.heap.cards
  {
    && ms.heap == h && ms.Ok() && CycleReady(h) && h.pinnedCells == {} && CountsOk(h.V(), h.explicitPins)
    && Shaped(h.Geo(), h.V()) && ms.objects == BlocksOf(h.Geo(), h.V())
    && CardsCover(h.Geo(), h.V(), h.cards[..]) && !h.poisoned
  }

  /** After a collection that ran out of pages: of the heap nothing is known but the sizes of its tables. */
  ghost predicate Wrecked(h: PageHeap, ms: Mutators)
    reads h, h.startTable.bits, ms
  {
    ms.heap == h && h.poisoned && h.Valid() && ms.Slots() && Counted(h.explicitPins)
  }

  ghost predicate Going(h: PageHeap, ms: Mutators)
    reads h, h.cells, h.startTable.bits, h.cards, ms, ms.heap, ms.heap.cells, ms.heap.startTable.bits, ms.heap.cards
  {
    RunOk(h, ms) || Wrecked(h, ms)
  }

  lemma GoingParts(h: PageHeap, ms: Mutators)
    requires Going(h, ms)
    ensures ms.heap == h && ms.OkOrPoisoned() && h.Valid() && Counted(h.explicitPins)
    ensures (RunOk(h, ms) <==> !h.poisoned) && (!h.poisoned ==> h.liveTarget == None)
    ensures |ms.refills| == ms.count && (forall s :: s in ms.tlabs <==> s.0 < ms.count && s.1 < 6)
  {
    hide Starts, GeoOk, MemoryOk, PagesOk, RegionsOk, WellPaired, CardsClean, SystemOk, HeapOk, NoLarge, PinsOk,
      CardsCover, BlocksOf;
  }

  /** A new heap without mutators is where a run may begin. Its nursery may have as many pages as
      `youngPages`, but two at least and not more than there are. */
  method NewSystem(layout: HeapLayout, base: nat, nPages: nat, youngPages: nat) returns (h: PageHeap, ms: Mutators)
    requires GeoOk(Geometry(layout, base, nPages))
    ensures fresh(h) && fresh(ms) && RunOk(h, ms) && h.Geo() == Geometry(layout, base, nPages) && AllObjs(h.V()) == {}
    ensures ms.count == 0 && h.explicitPins == map[] && CountersOf(h) == Counters(0, 0)
    ensures h.youngPageCap == if 2 <= youngPages <= nPages then youngPages else if youngPages > nPages then nPages
                              else if nPages >= 2 then 2 else nPages
  {
    hide Starts, GeoOk, MemoryOk, PagesOk, RegionsOk, WellPaired, CardsClean, SystemOk;
    h := new PageHeap(layout, base, nPages);
    var cap := if youngPages >= 2 then youngPages else 2;
    h.youngPageCap := if cap <= nPages then cap else nPages;
    NothingThere(h.Geo(), h.V());
    NothingCrosses(h.Geo(), h.V(), h.cards[..]);
    ReadyToAllocate(h.Geo(), h.V());
    ms := new Mutators(h, BlocksOf(h.Geo(), h.V()));
  }

  lemma NothingCrosses(g: Geometry, v: View, cards: seq<bool>)
    requires Shaped(g, v) && AllObjs(v) == {} && |cards| == CARDS_PER_PAGE * g.nPages
    ensures CardsCover(g, v, cards)
  {
    assert forall s: nat :: IsObj(v, s) ==> s in AllObjs(v);
  }

  lemma NothingThere(g: Geometry, v: View)
    requires Shaped(g, v) && AllObjs(v) == {}
    ensures HeapOk(g, v) && PinsOk(v, {})
  {
    assert forall s: nat :: IsObj(v, s) ==> s in AllObjs(v);
  }

  // -- Allocation -----------------------------------------------------------

  /** A header of an object of `n` cells. */
  predicate HeaderFits(g: Geometry, header: u64, n: nat) {
    && g.layout.decodes(header) && !IsMarker(g, header) && g.layout.headerLayout(header).totalCells == n
    && (g.layout.headerLayout(header).ptrStart < g.layout.headerLayout(header).ptrEnd ==>
          g.layout.headerLayout(header).ptrEnd <= n)
  }

  /** An object that was there is there, as it was. */
  lemma ObjectStays(g: Geometry, v: View, w: View, objects: set<Block>, s: nat)
    requires HeapOk(g, v) && Shaped(g, w) && objects == BlocksOf(g, v) && ObjectsKept(v, w, objects) && IsObj(v, s)
    requires SystemShape(w) && forall b | b in objects :: BlockOk(w, b)
    ensures SameShape(g, v, w, s, s) && ObjOk(g, w, s)
  {
    var b := Block(s, SizeOf(g, v, s), v.starts[s]);
    assert ObjOk(g, v, s) && s in AllObjs(v) && b in objects;
    ExtentOwner(g, v, s, SizeOf(g, v, s) - 1);
    assert BlockKept(v, w, b) && BlockOk(w, b);
    forall i: nat | i < SizeOf(g, v, s) ensures s + i < |w.cells| && Field(w, s, i) == Field(v, s, i) {
      assert b.c <= s + i < b.c + b.n;
    }
    assert w.cells[s] == v.cells[s] && w.starts[s] == v.starts[s];
  }

  ghost predicate SystemShape(v: View) {
    && |v.starts| == |v.cells| == PAGE_CELLS * |v.descs|
    && forall p | 0 <= p < |v.descs| :: v.descs[p].wordsUsed <= PAGE_CELLS
  }

  /** The heap with one object more, its header in place. */
  lemma HeapWithOneMore(g: Geometry, v: View, u: View, w: View, before: set<Block>, c: nat, n: nat, header: Option<u64>)
    requires GeoOk(g) && HeapOk(g, v) && before == BlocksOf(g, v) && ObjectsKept(v, u, before) && SystemShape(u)
    requires Shaped(g, u)
    requires var st := if header.None? then ConsStart else HeaderStart;
      && Allocated(u, u, before, before + {Block(c, n, st)}, c, n, st) && BlocksOk(u, before + {Block(c, n, st)})
      && StartsOwned(u, before + {Block(c, n, st)})
    requires match header
             case None => n == 2 && w == u
             case Some(word) => HeaderFits(g, word, n) && w == u.(cells := u.cells[c := word])
    ensures HeapOk(g, w) && BlocksOf(g, w) == before + {Block(c, n, if header.None? then ConsStart else HeaderStart)}
    ensures forall s: nat | IsObj(v, s) :: SameShape(g, v, w, s, s)
    ensures IsObj(w, c) && !IsObj(v, c)
  {
    hide ObjOk, SameShape, BlockKept;
    NotBefore(g, v, before, c, n);
    var st := if header.None? then ConsStart else HeaderStart;
    var b, after := Block(c, n, st), before + {Block(c, n, st)};
    forall s: nat | IsObj(v, s) ensures SameShape(g, v, w, s, s) && ObjOk(g, w, s) {
      OldObject(g, v, u, w, before, c, n, header, s);
    }
    NewObject(g, u, w, c, n, header, after);
    forall x: nat | x < |w.starts| && IsObj(w, x)
      ensures ObjOk(g, w, x) && Block(x, SizeOf(g, w, x), w.starts[x]) in after {
      assert IsObj(u, x) && StartOf(after, x);
      if x != c { Listed(g, v, w, before, x); }
    }
    forall a | a in after ensures a in BlocksOf(g, w) {
      if a == b {
        assert c in AllObjs(w);
      } else {
        OldListed(g, v, w, before, a);
      }
    }
    assert BlocksOf(g, w) == after;
  }

  lemma NotBefore(g: Geometry, v: View, before: set<Block>, c: nat, n: nat)
    requires HeapOk(g, v) && before == BlocksOf(g, v) && n >= 1 && forall b | b in before :: Apart(c, n, b.c, b.n)
    ensures !IsObj(v, c)
  {
    if IsObj(v, c) { BlockListed(g, v, c); }
  }

  lemma BlockListed(g: Geometry, v: View, c: nat)
    requires HeapOk(g, v) && IsObj(v, c)
    ensures SizeOf(g, v, c) >= 1 && Block(c, SizeOf(g, v, c), v.starts[c]) in BlocksOf(g, v)
  {
    assert ObjOk(g, v, c) && c in AllObjs(v);
  }

  lemma NewBlock(v: View, u: View, before: set<Block>, after: set<Block>, c: nat, n: nat, st: Start)
    requires Allocated(u, u, before, after, c, n, st)
    ensures after == before + {Block(c, n, st)} && Block(c, n, st) in after && c < |u.cells|
  {
    assert BlockOk(u, Block(c, n, st));
  }

  lemma OldObject(g: Geometry, v: View, u: View, w: View, before: set<Block>, c: nat, n: nat, header: Option<u64>,
                  s: nat)
    requires GeoOk(g) && HeapOk(g, v) && before == BlocksOf(g, v) && ObjectsKept(v, u, before) && SystemShape(u)
    requires Shaped(g, u)
    requires BlocksOk(u, before) && (forall b | b in before :: Apart(c, n, b.c, b.n)) && n >= 1 && c < |u.cells|
    requires match header case None => w == u case Some(word) => w == u.(cells := u.cells[c := word])
    requires IsObj(v, s)
    ensures SameShape(g, v, w, s, s) && ObjOk(g, w, s)
  {
    hide ObjOk, SameShape, BlockOk;
    forall b | b in before ensures BlockKept(v, w, b) && BlockOk(w, b) {
      assert BlockKept(v, u, b) && BlockOk(u, b);
      SameBlock(u, w, b, c);
    }
    ObjectStays(g, v, w, before, s);
  }

  lemma SameBlock(u: View, w: View, b: Block, c: nat)
    requires |u.starts| == |u.cells| == PAGE_CELLS * |u.descs| && w.starts == u.starts && w.descs == u.descs
    requires |w.cells| == |u.cells|
    requires BlockOk(u, b)
    ensures BlockOk(w, b)
  {
  }

  lemma NewObject(g: Geometry, u: View, w: View, c: nat, n: nat, header: Option<u64>, after: set<Block>)
    requires GeoOk(g) && Shaped(g, u) && SystemShape(u) && BlocksOk(u, after)
    requires Block(c, n, if header.None? then ConsStart else HeaderStart) in after
    requires forall x | c <= x < c + n :: x < |u.cells| && u.cells[x] == 0
    requires n >= 1 && c < |u.cells|
    requires match header
             case None => n == 2 && w == u
             case Some(word) => HeaderFits(g, word, n) && w == u.(cells := u.cells[c := word])
    ensures IsObj(w, c) && ObjOk(g, w, c) && SizeOf(g, w, c) == n
    ensures w.starts[c] == if header.None? then ConsStart else HeaderStart
  {
    assert BlockOk(u, Block(c, n, if header.None? then ConsStart else HeaderStart));
  }

  lemma Listed(g: Geometry, v: View, w: View, before: set<Block>, x: nat)
    requires Shaped(g, v) && Shaped(g, w) && before == BlocksOf(g, v) && (exists b :: b in before && b.c == x)
    requires forall s: nat | IsObj(v, s) :: SameShape(g, v, w, s, s)
    ensures IsObj(v, x) && Block(x, SizeOf(g, w, x), w.starts[x]) in before
  {
    hide SameShape;
    var b :| b in before && b.c == x;
    var s :| s in AllObjs(v) && b == Block(s, SizeOf(g, v, s), v.starts[s]);
    ShapeFit(g, v, w, x, x);
  }

  lemma OldListed(g: Geometry, v: View, w: View, before: set<Block>, a: Block)
    requires Shaped(g, v) && Shaped(g, w) && before == BlocksOf(g, v) && a in before
    requires forall s: nat | IsObj(v, s) :: SameShape(g, v, w, s, s)
    ensures a in BlocksOf(g, w)
  {
    hide SameShape;
    var s :| s in AllObjs(v) && a == Block(s, SizeOf(g, v, s), v.starts[s]);
    ShapeFit(g, v, w, s, s);
    assert s in AllObjs(w);
  }

  /** What `RunOk` needs after the objects have stayed in place. */
  lemma StillReadyToRun(h: PageHeap, v: View, w: View, pins: map<nat, nat>)
    requires CountsOk(v, pins) && forall s: nat | IsObj(v, s) :: IsObj(w, s)
    ensures CountsOk(w, pins) && forall s | s in pins :: IsObj(w, s)
  {
  }

  lemma KeptObjects(g: Geometry, v: View, w: View)
    requires Shaped(g, v) && Shaped(g, w) && forall s: nat | IsObj(v, s) :: SameShape(g, v, w, s, s)
    ensures forall s: nat | IsObj(v, s) :: IsObj(w, s)
  {
    forall s: nat | IsObj(v, s) ensures IsObj(w, s) { assert SameShape(g, v, w, s, s); }
  }

  lemma StillSmall(v: View, w: View, objects: set<Block>)
    requires ObjectsKept(v, w, objects) && NoLarge(v)
    ensures NoLarge(w)
  {
    hide BlockKept;
  }

  lemma PagesBounded(h: PageHeap)
    requires h.Inv()
    ensures SystemShape(h.V()) && Shaped(h.Geo(), h.V()) && GeoOk(h.Geo())
  {
    hide Starts, GeoOk, RegionsOk, WellPaired, CardsClean, CellZeroIfUnused;
  }

  lemma RunReady(h: PageHeap, ms: Mutators)
    requires RunOk(h, ms)
    ensures h.Inv() && HeapOk(h.Geo(), h.V()) && NoLarge(h.V()) && GeoOk(h.Geo())
    ensures SystemOk(h.V(), ms.tlabs, ms.objects)
    ensures h.Valid() && PassReady(h, G0) && h.liveTarget == None && !h.poisoned && ms.heap == h && ms.Ok()
    ensures CardsCover(h.Geo(), h.V(), h.cards[..]) && CountsOk(h.V(), h.explicitPins)
    ensures ms.objects == BlocksOf(h.Geo(), h.V()) && h.pinnedCells == {}
  {
    hide Starts, GeoOk, MemoryOk, PagesOk, RegionsOk, WellPaired, CardsClean, SystemOk, HeapOk, NoLarge, PinsOk,
      CardsCover, CountsOk;
  }

  lemma SystemParts(v: View, tlabs: map<Slot, Tlab>, objects: set<Block>)
    requires SystemOk(v, tlabs, objects)
    ensures |v.starts| == |v.cells| == PAGE_CELLS * |v.descs| && BlocksOk(v, objects) && StartsOwned(v, objects)
  {
    hide BlocksOk, StartsOwned, TlabsOk, TlabsUnused, TlabsApart, BlocksApart;
  }

  /** The state after an allocation or a store is one between commands again. */
  lemma RunAgain(h: PageHeap, ms: Mutators, v: View)
    requires ms.heap == h && ms.Ok() && h.Inv() && HeapOk(h.Geo(), h.V()) && NoLarge(h.V()) && h.liveTarget == None
    requires h.pinnedCells == {} && ms.objects == BlocksOf(h.Geo(), h.V()) && CountsOk(v, h.explicitPins)
    requires Shaped(h.Geo(), v) && !h.poisoned && CardsCover(h.Geo(), h.V(), h.cards[..])
    requires forall s: nat | IsObj(v, s) :: SameShape(h.Geo(), v, h.V(), s, s)
    ensures RunOk(h, ms)
  {
    hide Starts, GeoOk, MemoryOk, PagesOk, RegionsOk, WellPaired, CardsClean, SystemOk, HeapOk, NoLarge, SameShape,
      CardsCover;
    KeptObjects(h.Geo(), v, h.V());
    StillReadyToRun(h, v, h.V(), h.explicitPins);
  }

  /** Every word of every object is as it was. */
  ghost predicate WordsKept(g: Geometry, v: View, w: View) {
    forall s: nat, i: nat | IsObj(v, s) && s < |v.cells| && i < SizeOf(g, v, s) && s + i < |v.cells| ::
      s + i < |w.cells| && Field(w, s, i) == Field(v, s, i)
  }

  /** Every object is in the generation it was in. */
  ghost predicate GensKept(v: View, w: View) {
    forall s: nat | IsObj(v, s) :: s / PAGE_CELLS < |w.descs| && GenAt(w, s) == GenAt(v, s)
  }

  lemma GensStay(g: Geometry, v: View, u: View, w: View, objects: set<Block>)
    requires HeapOk(g, v) && objects == BlocksOf(g, v) && ObjectsKept(v, u, objects) && w.descs == u.descs
    ensures GensKept(v, w)
  {
    forall s: nat | IsObj(v, s) ensures s / PAGE_CELLS < |w.descs| && GenAt(w, s) == GenAt(v, s) {
      BlockListed(g, v, s);
      assert BlockKept(v, u, Block(s, SizeOf(g, v, s), v.starts[s]));
    }
  }

  lemma WordsStay(g: Geometry, v: View, u: View, w: View, objects: set<Block>, after: set<Block>, c: nat, n: nat,
                  st: Start, header: Option<u64>)
    requires HeapOk(g, v) && objects == BlocksOf(g, v) && ObjectsKept(v, u, objects)
    requires Allocated(u, u, objects, after, c, n, st)
    requires match header case None => w == u case Some(word) => c < |u.cells| && w == u.(cells := u.cells[c := word])
    ensures WordsKept(g, v, w)
  {
    forall s: nat, i: nat | IsObj(v, s) && s < |v.cells| && i < SizeOf(g, v, s) && s + i < |v.cells|
      ensures s + i < |w.cells| && Field(w, s, i) == Field(v, s, i) {
      BlockListed(g, v, s);
      assert BlockKept(v, u, Block(s, SizeOf(g, v, s), v.starts[s]));
    }
  }

  lemma SameView(g: Geometry, v: View)
    requires HeapOk(g, v)
    ensures forall s: nat | IsObj(v, s) :: SameShape(g, v, v, s, s)
    ensures WordsKept(g, v, v) && GensKept(v, v)
  {
    forall s: nat | IsObj(v, s) ensures SameShape(g, v, v, s, s) && s / PAGE_CELLS < |v.descs| {
      assert ObjOk(g, v, s);
    }
  }

  /** From `v` to `w` the object at `c` is new: `n` cells in `gen`, with its header, if it has one, and zeros. */
  ghost predicate NewObjectAt(g: Geometry, v: View, w: View, c: nat, gen: Generation, n: nat, header: Option<u64>)
    requires Shaped(g, v) && Shaped(g, w)
  {
    && !IsObj(v, c) && AllObjs(w) == AllObjs(v) + {c} && c + n <= |w.cells| && c < |w.starts|
    && c / PAGE_CELLS < |w.descs| && GenAt(w, c) == gen && SizeOf(g, w, c) == n
    && w.starts[c] == (if header.None? then ConsStart else HeaderStart)
    && forall x | c <= x < c + n :: w.cells[x] == if x == c && header.Some? then header.value else 0
  }

  lemma NewIsThere(g: Geometry, v: View, u: View, w: View, before: set<Block>, c: nat, gen: Generation,
                   kind: PageKind, n: nat, header: Option<u64>)
    requires GeoOk(g) && HeapOk(g, v) && HeapOk(g, w) && Shaped(g, u) && SystemShape(u) && before == BlocksOf(g, v)
    requires var st := if header.None? then ConsStart else HeaderStart;
      && Allocated(u, u, before, before + {Block(c, n, st)}, c, n, st) && BlocksOk(u, before + {Block(c, n, st)})
      && BlocksOf(g, w) == before + {Block(c, n, st)}
    requires match header
             case None => n == 2 && w == u
             case Some(word) => HeaderFits(g, word, n) && w == u.(cells := u.cells[c := word])
    requires PageOf(u, c, gen, kind) && n >= 1 && !IsObj(v, c)
    requires forall s: nat | IsObj(v, s) :: SameShape(g, v, w, s, s)
    ensures NewObjectAt(g, v, w, c, gen, n, header)
  {
    hide SameShape, BlockOk, SizeOf, HeaderFits, IsObj, ObjOk;
    var st := if header.None? then ConsStart else HeaderStart;
    var b, after := Block(c, n, st), before + {Block(c, n, st)};
    NewObject(g, u, w, c, n, header, after);
    forall s ensures s in AllObjs(w) <==> s in AllObjs(v) || s == c {
      if s in AllObjs(w) && s != c {
        assert Block(s, SizeOf(g, w, s), w.starts[s]) in BlocksOf(g, w);
        Listed(g, v, w, before, s);
      }
      if s in AllObjs(v) { ShapeFit(g, v, w, s, s); }
      if s == c { assert b in BlocksOf(g, w); }
    }
    assert AllObjs(w) == AllObjs(v) + {c};
    ObjFitsView(g, w, c);
    assert w.cells[c] == if header.Some? then header.value else 0;
  }

  /** A new object holds no pointer yet, and what the old ones hold crosses no more generations than before. */
  lemma NewCovers(g: Geometry, v: View, w: View, cards: seq<bool>, c: nat, gen: Generation, n: nat,
                  header: Option<u64>)
    requires GeoOk(g) && HeapOk(g, v) && HeapOk(g, w) && NewObjectAt(g, v, w, c, gen, n, header)
    requires forall s: nat | IsObj(v, s) :: SameShape(g, v, w, s, s)
    requires WordsKept(g, v, w) && GensKept(v, w) && InUseKept(v.descs, w.descs) && CardsCover(g, v, cards)
    ensures CardsCover(g, w, cards)
  {
    hide SameShape, SizeOf, IsPtrOff, ObjOk, Crosses;
    forall s: nat | s < |w.starts| && IsObj(w, s)
      ensures s + SizeOf(g, w, s) <= |w.cells| && ObjCarded(g, w, cards, s) {
      ObjFitsView(g, w, s);
      assert s in AllObjs(w);
      if s == c {
        forall i: nat | i < SizeOf(g, w, s) && IsPtrOff(g, w, s, i) ensures !Crosses(g, w, s, Field(w, s, i)) {
          NoPointerYet(g, v, w, c, gen, n, header, i);
        }
      } else {
        assert s in AllObjs(v);
        OldCarded(g, v, w, cards, s);
      }
    }
  }

  lemma NoPointerYet(g: Geometry, v: View, w: View, c: nat, gen: Generation, n: nat, header: Option<u64>, i: nat)
    requires GeoOk(g) && HeapOk(g, w) && Shaped(g, v) && NewObjectAt(g, v, w, c, gen, n, header)
    requires i < n && IsPtrOff(g, w, c, i) && IsObj(w, c)
    ensures Field(w, c, i) == 0 && !Crosses(g, w, c, 0)
  {
    assert ObjOk(g, w, c);
  }

  lemma OldCarded(g: Geometry, v: View, w: View, cards: seq<bool>, s: nat)
    requires GeoOk(g) && HeapOk(g, v) && HeapOk(g, w) && IsObj(v, s) && SameShape(g, v, w, s, s) && IsObj(w, s)
    requires WordsKept(g, v, w) && GensKept(v, w) && InUseKept(v.descs, w.descs) && CardsCover(g, v, cards)
    requires s + SizeOf(g, w, s) <= |w.cells|
    ensures ObjCarded(g, w, cards, s)
  {
    hide SameShape, SizeOf, IsPtrOff, ObjOk;
    ShapeFit(g, v, w, s, s);
    ObjFitsView(g, v, s);
    assert ObjCarded(g, v, cards, s);
    forall i: nat | i < SizeOf(g, w, s) && IsPtrOff(g, w, s, i) && Crosses(g, w, s, Field(w, s, i))
      ensures (s + i) / CARD_CELLS < |cards| && cards[(s + i) / CARD_CELLS] {
      ShapeOffsets(g, v, w, s, s, i);
      assert Field(w, s, i) == Field(v, s, i) && Crosses(g, v, s, Field(v, s, i));
    }
  }

  /** When an allocation by mutator `m`, or from the central path, is refused. */
  ghost predicate Declined(h: PageHeap, ms: Mutators, m: Option<nat>, gen: Generation, kind: PageKind, n: nat)
    requires HasRegion(gen, kind) && |h.regions| == 6
    requires m.Some? ==> (m.value, RegionIndex(gen, kind)) in ms.tlabs
    reads h, ms
  {
    h.poisoned
    || (Refused(h, gen, kind, n) && (m.Some? ==> ms.tlabs[(m.value, RegionIndex(gen, kind))].Room() < n))
  }

  /** The slabs after `n` cells at `c` were allocated: that of mutator `m` was bumped, after a refill if it had
      no room; the central path leaves them as they are. */
  function SlabsAfter(tlabs: map<Slot, Tlab>, regions: seq<AllocRegion>, m: Option<nat>, gen: Generation,
                      kind: PageKind, n: nat, c: nat): map<Slot, Tlab>
    requires HasRegion(gen, kind) && |regions| == 6 && (m.Some? ==> (m.value, RegionIndex(gen, kind)) in tlabs)
  {
    match m
    case None => tlabs
    case Some(k) =>
      var s := (k, RegionIndex(gen, kind));
      tlabs[s := Tlabs.Bumped(SlabFor(tlabs[s], RoomLeft(regions, gen, kind), n, c), n)]
  }

  /** The cells of a new object: bumped off a slab of mutator `m`, or from the central path. */
  method NewCells(ms: Mutators, m: Option<nat>, gen: Generation, kind: PageKind, n: nat, isCons: bool)
    returns (r: Option<nat>)
    requires ms.OkOrPoisoned() && HasRegion(gen, kind) && 1 <= n <= PAGE_CELLS && (kind == Cons ==> isCons)
    requires m.Some? ==> m.value < ms.count
    modifies ms`tlabs, ms`refills, ms`objects, ms.heap`descs, ms.heap`regions, ms.heap`bytesAlloc, ms.heap`committed,
      ms.heap`freeList, ms.heap`highWater, ms.heap.cells, ms.heap.startTable.bits
    ensures ms.OkOrPoisoned() && (old(ms.Ok()) ==> ms.Ok())
    ensures old(ms.Ok()) ==> ObjectsKept(old(ms.heap.V()), ms.heap.V(), old(ms.objects))
    ensures |old(ms.heap.regions)| == 6 && (m.Some? ==> (m.value, RegionIndex(gen, kind)) in old(ms.tlabs))
    ensures r.None? <==> old(Declined(ms.heap, ms, m, gen, kind, n))
    ensures r.None? ==> ms.objects == old(ms.objects) && ms.heap.V() == old(ms.heap.V()) && ms.tlabs == old(ms.tlabs)
    ensures r.Some? ==> ms.tlabs == SlabsAfter(old(ms.tlabs), old(ms.heap.regions), m, gen, kind, n, r.value)
    ensures r.Some? ==> Allocated(ms.heap.V(), ms.heap.V(), old(ms.objects), ms.objects, r.value, n,
                          if isCons then ConsStart else HeaderStart)
    ensures r.Some? ==> PageOf(ms.heap.V(), r.value, gen, kind)
    ensures ms.heap.bytesAlloc == old(ms.heap.bytesAlloc) + if r.Some? then 8 * n else 0
    ensures ms.heap.liveTarget != Some(G0) ==>
              CapKept(old(ms.heap.descs), ms.heap.descs, ms.heap.youngPageCap)
    ensures InUseKept(old(ms.heap.descs), ms.heap.descs)
  {
    hide Starts, GeoOk, MemoryOk, PagesOk, RegionsOk, WellPaired, CardsClean, SystemOk, ObjectsKept, Allocated,
      NextRoom, SlabFor, CapKept, InUseKept, PageOf, Refused, RoomLeft;
    if ms.heap.poisoned { PoisonRefuses(ms.heap, gen, kind, n); }
    if m.Some? {
      r := ms.Bump(m.value, gen, kind, n, isCons);
    } else {
      r := ms.AllocCentral(gen, kind, n, isCons);
    }
  }

  /** A new object: bumped off a slab of mutator `m`, or from the central path, and its header written.
      On a poisoned heap there is none. */
  method AddObject(h: PageHeap, ms: Mutators, m: Option<nat>, gen: Generation, kind: PageKind, n: nat,
                   header: Option<u64>)
    returns (r: Option<nat>)
    requires Going(h, ms) && HasRegion(gen, kind) && 1 <= n <= PAGE_CELLS && (kind == Cons ==> header.None?)
    requires m.Some? ==> m.value < ms.count
    requires match header case None => n == 2 case Some(word) => HeaderFits(h.Geo(), word, n)
    modifies ms`tlabs, ms`refills, ms`objects, h`descs, h`regions, h`bytesAlloc, h`committed, h`freeList, h`highWater,
      h.cells, h.startTable.bits
    ensures Going(h, ms) && (old(RunOk(h, ms)) ==> RunOk(h, ms)) && (old(Wrecked(h, ms)) ==> Wrecked(h, ms))
    ensures |old(h.regions)| == 6 && (m.Some? ==> (m.value, RegionIndex(gen, kind)) in old(ms.tlabs))
    ensures r.None? <==> old(Declined(h, ms, m, gen, kind, n))
    ensures (h.poisoned ==> r.None?) && (r.None? ==> h.V() == old(h.V()))
    ensures old(RunOk(h, ms)) ==>
              && (forall s: nat | IsObj(old(h.V()), s) :: SameShape(h.Geo(), old(h.V()), h.V(), s, s))
              && WordsKept(h.Geo(), old(h.V()), h.V()) && GensKept(old(h.V()), h.V())
    ensures Shaped(h.Geo(), old(h.V())) && Shaped(h.Geo(), h.V())
    ensures r.Some? ==> NewObjectAt(h.Geo(), old(h.V()), h.V(), r.value, gen, n, header)
    ensures ms.tlabs == if r.None? then old(ms.tlabs)
                        else SlabsAfter(old(ms.tlabs), old(h.regions), m, gen, kind, n, r.value)
    ensures h.bytesAlloc == old(h.bytesAlloc) + if r.Some? then 8 * n else 0
    ensures old(RunOk(h, ms)) ==> CapKept(old(h.descs), h.descs, h.youngPageCap)
    ensures InUseKept(old(h.descs), h.descs)
  {
    hide Starts, GeoOk, MemoryOk, PagesOk, RegionsOk, WellPaired, CardsClean, SystemOk, HeapOk, SameShape, ObjectsKept,
      Allocated, BlocksOk, StartsOwned, SystemShape, CountsOk, BlocksOf, HeaderFits, PassReady, WordsKept, GensKept,
      CardsCover, NewObjectAt, CapKept, InUseKept, PageOf, Refused, RunOk, NoLarge, SlabsAfter;
    ghost var g, v, before, st := h.Geo(), h.V(), ms.objects, if header.None? then ConsStart else HeaderStart;
    GoingParts(h, ms);
    ValidShape(h);
    if !h.poisoned { RunReady(h, ms); }
    r := NewCells(ms, m, gen, kind, n, header.None?);
    ValidShape(h);
    if r.None? {
      if !h.poisoned {
        SameView(g, v);
        RunAgain(h, ms, v);
      }
      return;
    }
    ghost var u, was := h.V(), ms.objects;
    NewBlock(v, u, before, was, r.value, n, st);
    if header.Some? {
      ms.Store(Block(r.value, n, HeaderStart), 0, header.value);
    }
    Added(h, ms, v, u, before, was, r.value, gen, kind, n, header);
  }

  lemma PoisonRefuses(h: PageHeap, gen: Generation, kind: PageKind, n: nat)
    requires HasRegion(gen, kind) && |h.regions| == 6 && h.poisoned
    ensures Refused(h, gen, kind, n)
  {
  }

  lemma ValidShape(h: PageHeap)
    requires h.Valid()
    ensures Shaped(h.Geo(), h.V()) && GeoOk(h.Geo()) && |h.regions| == 6
  {
    hide Starts, GeoOk, WellPaired;
  }

  /** The heap after an object was added to `v` in `u` and its header written. */
  lemma Added(h: PageHeap, ms: Mutators, v: View, u: View, before: set<Block>, after: set<Block>, c: nat,
              gen: Generation, kind: PageKind, n: nat, header: Option<u64>)
    requires ms.heap == h && ms.Ok() && h.Inv() && h.liveTarget == None && h.pinnedCells == {} && !h.poisoned
    requires GeoOk(h.Geo()) && HeapOk(h.Geo(), v) && NoLarge(v) && before == BlocksOf(h.Geo(), v)
    requires CountsOk(v, h.explicitPins) && CardsCover(h.Geo(), v, h.cards[..]) && ms.objects == after
    requires ObjectsKept(v, u, before) && u.descs == h.descs && u.starts == h.V().starts && |u.cells| == |h.V().cells|
    requires var st := if header.None? then ConsStart else HeaderStart;
      Allocated(u, u, before, after, c, n, st) && after == before + {Block(c, n, st)}
    requires PageOf(u, c, gen, kind) && InUseKept(v.descs, u.descs) && n >= 1 && c < |u.cells|
    requires match header
             case None => n == 2 && h.V() == u
             case Some(word) => HeaderFits(h.Geo(), word, n) && h.V() == u.(cells := u.cells[c := word])
    ensures Shaped(h.Geo(), v) && Shaped(h.Geo(), h.V()) && RunOk(h, ms)
    ensures forall s: nat | IsObj(v, s) :: SameShape(h.Geo(), v, h.V(), s, s)
    ensures WordsKept(h.Geo(), v, h.V()) && GensKept(v, h.V())
    ensures NewObjectAt(h.Geo(), v, h.V(), c, gen, n, header)
  {
    hide Starts, GeoOk, MemoryOk, PagesOk, RegionsOk, WellPaired, CardsClean, SystemOk, HeapOk, SameShape, ObjectsKept,
      Allocated, BlocksOk, StartsOwned, SystemShape, CountsOk, BlocksOf, HeaderFits, PassReady, WordsKept, GensKept,
      CardsCover, NewObjectAt, InUseKept, PageOf, RunOk, NoLarge;
    var g, w, st := h.Geo(), h.V(), if header.None? then ConsStart else HeaderStart;
    PagesBounded(h);
    WellShaped(g, v);
    SameTables(g, w, u);
    SystemParts(w, ms.tlabs, ms.objects);
    SameBlocks(w, u, after);
    HeapWithOneMore(g, v, u, w, before, c, n, header);
    StillSmall(v, u, before);
    SmallStill(u, w);
    NewIsThere(g, v, u, w, before, c, gen, kind, n, header);
    WordsStay(g, v, u, w, before, after, c, n, st, header);
    GensStay(g, v, u, w, before);
    NewCovers(g, v, w, h.cards[..], c, gen, n, header);
    RunAgain(h, ms, v);
  }

  lemma SameTables(g: Geometry, w: View, u: View)
    requires u.descs == w.descs && u.starts == w.starts && |u.cells| == |w.cells|
    requires SystemShape(w) && Shaped(g, w)
    ensures SystemShape(u) && Shaped(g, u)
  {
  }

  /** Blocks and starts are a matter of the tables. */
  lemma SameBlocks(w: View, u: View, objects: set<Block>)
    requires u.descs == w.descs && u.starts == w.starts && |u.cells| == |w.cells|
    requires |w.starts| == |w.cells| == PAGE_CELLS * |w.descs| && BlocksOk(w, objects) && StartsOwned(w, objects)
    ensures BlocksOk(u, objects) && StartsOwned(u, objects)
  {
    forall b | b in objects ensures BlockOk(u, b) { assert BlockOk(w, b); }
  }

  // -- Stores ---------------------------------------------------------------

  /** Field `i` of the object at `s` may be set to `word`: a pointer field, and no marker in a start cell. */
  predicate Storable(g: Geometry, v: View, s: nat, i: nat, word: u64) {
    && IsObj(v, s) && s + i < |v.cells| && i < SizeOf(g, v, s) && IsPtrOff(g, v, s, i)
    && (i == 0 ==> !IsMarker(g, word))
  }

  lemma StoreFits(g: Geometry, v: View, s: nat, i: nat, word: u64)
    requires HeapOk(g, v) && Storable(g, v, s, i, word)
    ensures s + i < |v.cells| && v.descs[(s + i) / PAGE_CELLS].generation != Free && (s + i) / PAGE_CELLS < |v.descs|
    ensures i < SizeOf(g, v, s) && Block(s, SizeOf(g, v, s), v.starts[s]) in BlocksOf(g, v)
    ensures i > 0 ==> v.starts[s + i] == NoStart
    ensures i == 0 ==> v.starts[s] == ConsStart || !g.layout.decodes(v.cells[s]) || !IsMarker(g, word)
  {
    assert ObjOk(g, v, s) && s in AllObjs(v);
    ExtentOwner(g, v, s, i);
  }

  /** A store into a pointer field leaves every object with its shape. */
  lemma StoreOk(g: Geometry, v: View, s: nat, i: nat, word: u64, w: View)
    requires GeoOk(g) && HeapOk(g, v) && Storable(g, v, s, i, word) && s + i < |v.cells|
    requires w == v.(cells := v.cells[s + i := word])
    ensures HeapOk(g, w) && BlocksOf(g, w) == BlocksOf(g, v)
    ensures forall x: nat | IsObj(v, x) :: SameShape(g, v, w, x, x)
  {
    StoreFits(g, v, s, i, word);
    hide SameShape;
    forall x: nat | IsObj(v, x) ensures SameShape(g, v, w, x, x) && ObjOk(g, w, x) {
      StoreObject(g, v, s, i, word, w, x);
    }
    forall x: nat | IsObj(v, x) ensures SizeOf(g, w, x) == SizeOf(g, v, x) && IsObj(w, x) { ShapeFit(g, v, w, x, x); }
    hide ObjOk, SizeOf;
    assert AllObjs(w) == AllObjs(v);
    assert forall a | a in AllObjs(v) ::
        Block(a, SizeOf(g, w, a), w.starts[a]) == Block(a, SizeOf(g, v, a), v.starts[a]);
    assert BlocksOf(g, w) == BlocksOf(g, v);
  }

  lemma StoreObject(g: Geometry, v: View, s: nat, i: nat, word: u64, w: View, x: nat)
    requires GeoOk(g) && HeapOk(g, v) && Storable(g, v, s, i, word) && s + i < |v.cells|
    requires w == v.(cells := v.cells[s + i := word])
    requires IsObj(v, x)
    ensures SameShape(g, v, w, x, x) && ObjOk(g, w, x)
  {
    assert ObjOk(g, v, x) && ObjOk(g, v, s);
    ExtentOwner(g, v, x, SizeOf(g, v, x) - 1);
    ExtentOwner(g, v, s, i);
    if x == s + i { OwnerIs(v.starts, x, x); }
    assert LayoutAt(g, w, x) == LayoutAt(g, v, x);
    forall k: nat | k < SizeOf(g, v, x) && !IsPtrOff(g, v, x, k) ensures Field(w, x, k) == Field(v, x, k) {
      ExtentOwner(g, v, x, k);
    }
  }

  /** The write barrier: with the card of the field dirty, every cross-generation pointer still lies on a dirty card. */
  lemma StoreCovers(g: Geometry, v: View, w: View, before: seq<bool>, after: seq<bool>, s: nat, i: nat, word: u64)
    requires GeoOk(g) && HeapOk(g, v) && Storable(g, v, s, i, word) && CardsCover(g, v, before)
    requires w == v.(cells := v.cells[s + i := word])
    requires (s + i) / CARD_CELLS < |before| && after == before[(s + i) / CARD_CELLS := true]
    ensures Shaped(g, w) && CardsCover(g, w, after)
  {
    hide SameShape, SizeOf, IsPtrOff, ObjOk, Storable;
    forall x: nat | x < |w.starts| && IsObj(w, x)
      ensures x + SizeOf(g, w, x) <= |w.cells| && ObjCarded(g, w, after, x) {
      assert IsObj(v, x);
      StoreObject(g, v, s, i, word, w, x);
      ShapeFit(g, v, w, x, x);
      ObjFitsView(g, v, x);
      assert ObjCarded(g, v, before, x);
      forall k: nat | k < SizeOf(g, w, x) && IsPtrOff(g, w, x, k) && Crosses(g, w, x, Field(w, x, k))
        ensures (x + k) / CARD_CELLS < |after| && after[(x + k) / CARD_CELLS] {
        ShapeOffsets(g, v, w, x, x, k);
        if x + k != s + i { assert Field(w, x, k) == Field(v, x, k) && Crosses(g, v, x, Field(v, x, k)); }
      }
    }
  }

  /** A mutator stores a word in a pointer field, and marks the card. A poisoned heap is stored to all the same. */
  method StoreField(h: PageHeap, ms: Mutators, s: nat, n: nat, st: Start, i: nat, word: u64)
    requires Going(h, ms) && Storable(h.Geo(), h.V(), s, i, word)
    requires n == SizeOf(h.Geo(), h.V(), s) && st == h.V().starts[s]
    modifies h.cells, h.cards
    ensures Going(h, ms) && (old(RunOk(h, ms)) ==> RunOk(h, ms)) && (old(Wrecked(h, ms)) ==> Wrecked(h, ms))
    ensures s + i < |old(h.V()).cells| && h.V() == old(h.V()).(cells := old(h.V()).cells[s + i := word])
    ensures (s + i) / CARD_CELLS < |old(h.cards[..])|
            && h.cards[..] == old(h.cards[..])[(s + i) / CARD_CELLS := true]
    ensures old(RunOk(h, ms)) ==>
              forall x: nat | IsObj(old(h.V()), x) :: SameShape(h.Geo(), old(h.V()), h.V(), x, x)
  {
    hide Starts, GeoOk, MemoryOk, PagesOk, RegionsOk, WellPaired, CardsClean, SystemOk, HeapOk, NoLarge, SameShape,
      CountsOk, BlocksOf, Storable, PassReady, SizeOf, CardsCover, RunOk;
    ghost var v, cards := h.V(), h.cards[..];
    GoingParts(h, ms);
    StoreFitsTables(h.Geo(), v, s, i, word);
    if !h.poisoned {
      RunReady(h, ms);
      StoreFits(h.Geo(), v, s, i, word);
      PageInUse(h.descs, h.committed, h.freeList, h.highWater, (s + i) / PAGE_CELLS);
    }
    ms.Store(Block(s, n, st), i, word);
    h.MarkCard(s + i);
    if !h.poisoned { StoredTo(h, ms, v, cards, s, i, word); }
  }

  lemma StoreFitsTables(g: Geometry, v: View, s: nat, i: nat, word: u64)
    requires Storable(g, v, s, i, word)
    ensures s + i < |v.cells| && i < SizeOf(g, v, s)
  {
  }

  /** The heap after a store and its card mark. */
  lemma StoredTo(h: PageHeap, ms: Mutators, v: View, cards: seq<bool>, s: nat, i: nat, word: u64)
    requires ms.heap == h && h.Valid() && PagesOk(h.descs, h.committed, h.freeList, h.highWater)
    requires RegionsOk(h.descs, h.regions) && MemoryOk(h.V(), h.committed) && ms.Slots()
    requires SystemOk(h.V(), ms.tlabs, ms.objects) && h.liveTarget == None && h.pinnedCells == {} && !h.poisoned
    requires GeoOk(h.Geo()) && HeapOk(h.Geo(), v) && NoLarge(v) && CountsOk(v, h.explicitPins)
    requires ms.objects == BlocksOf(h.Geo(), v) && CardsCover(h.Geo(), v, cards) && CardsClean(cards, h.highWater)
    requires Storable(h.Geo(), v, s, i, word) && s + i < |v.cells| && (s + i) / PAGE_CELLS < h.highWater
    requires h.V() == v.(cells := v.cells[s + i := word])
    requires (s + i) / CARD_CELLS < |cards| && h.cards[..] == cards[(s + i) / CARD_CELLS := true]
    ensures RunOk(h, ms) && Shaped(h.Geo(), v)
    ensures forall x: nat | IsObj(v, x) :: SameShape(h.Geo(), v, h.V(), x, x)
  {
    hide Starts, GeoOk, MemoryOk, PagesOk, RegionsOk, WellPaired, CardsClean, SystemOk, HeapOk, NoLarge, SameShape,
      CountsOk, BlocksOf, Storable, PassReady, SizeOf, CardsCover, RunOk;
    WellShaped(h.Geo(), v);
    StoreOk(h.Geo(), v, s, i, word, h.V());
    StoreCovers(h.Geo(), v, h.V(), cards, h.cards[..], s, i, word);
    CleanStill(cards, h.cards[..], h.highWater, s + i);
    SmallStill(v, h.V());
    RunAgain(h, ms, v);
  }

  lemma WellShaped(g: Geometry, v: View)
    requires HeapOk(g, v)
    ensures Shaped(g, v)
  {
  }

  lemma PageInUse(descs: seq<PageDesc>, committed: seq<bool>, freeList: seq<nat>, highWater: nat, p: nat)
    requires |descs| == |committed| && PagesOk(descs, committed, freeList, highWater) && p < |descs|
    requires descs[p].generation != Free
    ensures p < highWater
  {
  }

  lemma CleanStill(before: seq<bool>, after: seq<bool>, highWater: nat, c: nat)
    requires CardsClean(before, highWater) && c / PAGE_CELLS < highWater && c / CARD_CELLS < |before|
    requires after == before[c / CARD_CELLS := true]
    ensures CardsClean(after, highWater)
  {
  }

  lemma SmallStill(v: View, w: View)
    requires NoLarge(v) && w.descs == v.descs
    ensures NoLarge(w)
  {
  }
}
