/** The remembered set: which cross-generation pointers lie on dirty cards. */
module Remembered {
  import opened Bits
  import opened Options
  import opened Bitmaps
  import opened Pages
  import opened Objects
  import opened PageHeaps
  import opened Marking
  import opened Cards
  import opened Copying
  import opened EvacMarking
  import opened Graphs
  import opened Placement
  import opened PassGraph
  import opened PassSteps
  import opened PassStates
  import opened PassResults

  // -- The dirty-card condition ---------------------------------------------

  /** The pointers of the object at `s` to other generations lie on dirty cards. */
  ghost predicate ObjCarded(g: Geometry, v: View, cards: seq<bool>, s: nat)
    requires s < |v.starts| == |v.cells| && s + SizeOf(g, v, s) <= |v.cells| && s / PAGE_CELLS < |v.descs|
  {
    forall i: nat | i < SizeOf(g, v, s) && IsPtrOff(g, v, s, i) && Crosses(g, v, s, Field(v, s, i)) ::
      (s + i) / CARD_CELLS < |cards| && cards[(s + i) / CARD_CELLS]
  }

  predicate Crosses(g: Geometry, v: View, s: nat, w: u64) {
    && InHeap(g, w) && s / PAGE_CELLS < |v.descs| && CellOf(g, w) / PAGE_CELLS < |v.descs|
    && GenAt(v, CellOf(g, w)) != GenAt(v, s)
  }

  /** Every cross-generation pointer lies on a dirty card. */
  ghost predicate CardsCover(g: Geometry, v: View, cards: seq<bool>)
    requires Shaped(g, v)
  {
    && |cards| == CARDS_PER_PAGE * g.nPages
    && forall s: nat | s < |v.starts| && IsObj(v, s) ::
         s + SizeOf(g, v, s) <= |v.cells| && ObjCarded(g, v, cards, s)
  }

  /** A snapshot under which the card scan looks at every page outside `from`. */
  ghost predicate SeesAll(snapshot: seq<PageDesc>, descs: seq<PageDesc>, from: Generation) {
    && |snapshot| == |descs|
    && forall p | 0 <= p < |descs| && descs[p].generation != Free && descs[p].generation != from ::
         snapshot[p].generation != Free && snapshot[p].generation != from
  }

  /** Then the scan finds every pointer into `from` from outside it. */
  lemma CardsFind(g: Geometry, v: View, cards: seq<bool>, snapshot: seq<PageDesc>, from: Generation, pins: set<nat>)
    requires HeapOk(g, v) && GapFree(g, v) && CardsCover(g, v, cards) && SeesAll(snapshot, v.descs, from)
    ensures OutsideCovered(g, v, CardRoots(g, v, cards, Some(snapshot), from), pins, from)
  {
    hide ObjOk, CardVisits, Tiled, GapFree, IsPtrOff, SizeOf;
    var visited := CardRoots(g, v, cards, Some(snapshot), from);
    forall s: nat | s < |v.starts| && IsObj(v, s) && GenAt(v, s) != from && s !in pins
      ensures s + SizeOf(g, v, s) <= |v.cells| && ObjCovered(g, v, visited, from, s)
    {
      forall i: nat | i < SizeOf(g, v, s) && IsPtrOff(g, v, s, i) && IntoGen(g, v, from, Field(v, s, i))
        ensures s + i in visited {
        assert ObjCarded(g, v, cards, s) && Crosses(g, v, s, Field(v, s, i));
        OnTiledPage(g, v, s);
        CardFinds(g, v, cards, snapshot, from, s, i);
      }
    }
  }

  lemma OnTiledPage(g: Geometry, v: View, s: nat)
    requires Shaped(g, v) && GapFree(g, v) && IsObj(v, s)
    ensures s / PAGE_CELLS < |v.descs| && Tiled(g, v, s / PAGE_CELLS)
  {
    hide Tiled;
  }

  lemma CardFinds(g: Geometry, v: View, cards: seq<bool>, snapshot: seq<PageDesc>, from: Generation, s: nat, i: nat)
    requires HeapOk(g, v) && SeesAll(snapshot, v.descs, from) && |cards| == CARDS_PER_PAGE * g.nPages
    requires s / PAGE_CELLS < |v.descs| && Tiled(g, v, s / PAGE_CELLS)
    requires IsObj(v, s) && GenAt(v, s) != from && i < SizeOf(g, v, s) && IsPtrOff(g, v, s, i)
    requires (s + i) / CARD_CELLS < |cards| && cards[(s + i) / CARD_CELLS]
    ensures s + i in CardRoots(g, v, cards, Some(snapshot), from)
  {
    hide CardVisits, PtrCells, Tiled;
    var c, k := s + i, (s + i) / CARD_CELLS;
    assert ObjOk(g, v, s);
    ExtentOwner(g, v, s, i);
    PtrCellIn(g, v, s, i);
    assert PtrCellAt(g, v, c);
    CardOnPage(k);
    assert k / CARDS_PER_PAGE == s / PAGE_CELLS;
    CardScanComplete(g, v, k, c);
    assert CardScanned(cards, snapshot, from, k);
  }

  /** What an object outside the source points to in it is kept, on account of the dirty card alone, if the page
      of the object has no gaps. */
  lemma CardKeeps(g: Geometry, v: View, cards: seq<bool>, roots: seq<u64>, snapshot: seq<PageDesc>, from: Generation,
                  pins: set<nat>, s: nat, i: nat)
    requires HeapOk(g, v) && CardsCover(g, v, cards) && SeesAll(snapshot, v.descs, from)
    requires s / PAGE_CELLS < |v.descs| && Tiled(g, v, s / PAGE_CELLS) && IsObj(v, s) && GenAt(v, s) != from
    requires i < SizeOf(g, v, s) && IsPtrOff(g, v, s, i) && s + i < |v.cells| && Follows(g, v, from, Field(v, s, i))
    ensures InHeap(g, Field(v, s, i))
            && CellOf(g, Field(v, s, i)) in ToKeep(g, v, cards, roots, Some(snapshot), from, pins)
  {
    hide CardVisits, Tiled, ObjOk, SizeOf, IsPtrOff, CardRoots, SeesAll, Reachable, PinsIn, CrossPinPtrs;
    var w, visited := Field(v, s, i), CardRoots(g, v, cards, Some(snapshot), from);
    assert ObjCarded(g, v, cards, s) && Crosses(g, v, s, w);
    CardFinds(g, v, cards, snapshot, from, s, i);
    assert w in WordsAt(v, visited);
    assert CellOf(g, w) in SeedCells(g, v, from, WordsAt(v, visited));
    var seeds := EvacSeeds(g, v, from, roots, visited, pins);
    ReachSeed(g, v, from, seeds, CellOf(g, w));
  }

  /** A pass keeps the dirty-card condition. */
  lemma PassKeepsCover(g: Geometry, v: View, w: View, phi: map<nat, nat>, live: set<nat>, pins: set<nat>,
                       from: Generation, dest: Generation, before: seq<bool>, after: seq<bool>)
    requires GeoOk(g) && PassResult(g, v, w, phi, live, pins, from, dest) && Iso(g, v, w, phi)
    requires CardedSoFar(g, v, phi, from, {}, before, after) && CardsCover(g, v, before)
    ensures CardsCover(g, w, after)
  {
    hide SameShape, IsPtrOff, SizeOf, BlockCarded, WordImage, Crosses;
    forall t: nat | t < |w.starts| && IsObj(w, t)
      ensures t + SizeOf(g, w, t) <= |w.cells| && ObjCarded(g, w, after, t)
    {
      assert t in AllObjs(w);
      var s :| s in phi && phi[s] == t;
      assert ObjImage(g, v, w, phi, s);
      ShapeFit(g, v, w, s, t);
      forall i: nat | i < SizeOf(g, w, t) && IsPtrOff(g, w, t, i) && Crosses(g, w, t, Field(w, t, i))
        ensures (t + i) / CARD_CELLS < |after| && after[(t + i) / CARD_CELLS]
      {
        ShapeOffsets(g, v, w, s, t, i);
        assert FieldImage(g, phi, true, Field(v, s, i), Field(w, t, i));
        CrossStays(g, v, w, phi, live, pins, from, dest, before, after, s, i);
      }
    }
  }

  lemma CrossStays(g: Geometry, v: View, w: View, phi: map<nat, nat>, live: set<nat>, pins: set<nat>, from: Generation,
                   dest: Generation, before: seq<bool>, after: seq<bool>, s: nat, i: nat)
    requires GeoOk(g) && PassResult(g, v, w, phi, live, pins, from, dest)
    requires CardedSoFar(g, v, phi, from, {}, before, after) && CardsCover(g, v, before)
    requires s in phi && IsObj(v, s) && i < SizeOf(g, v, s) && IsPtrOff(g, v, s, i) && s + i < |v.cells|
    requires phi[s] + i < |w.cells|
    requires WordImage(g, phi, Field(v, s, i), Field(w, phi[s], i)) && Crosses(g, w, phi[s], Field(w, phi[s], i))
    ensures (phi[s] + i) / CARD_CELLS < |after| && after[(phi[s] + i) / CARD_CELLS]
  {
    hide SameShape, IsPtrOff, SizeOf, PassResult, Crosses, WordImage;
    StaysInPlace(g, v, w, phi, live, pins, from, dest, s);
    var word := Field(v, s, i);
    if GenAt(v, s) == from {
      assert BlockCarded(after, phi[s], SizeOf(g, v, s));
    } else {
      CrossedBefore(g, v, w, phi, pins, from, dest, live, s, word, Field(w, phi[s], i));
      assert ObjCarded(g, v, before, s);
    }
  }

  lemma StaysInPlace(g: Geometry, v: View, w: View, phi: map<nat, nat>, live: set<nat>, pins: set<nat>,
                     from: Generation, dest: Generation, s: nat)
    requires PassResult(g, v, w, phi, live, pins, from, dest) && s in phi
    ensures Shaped(g, v) && Shaped(g, w) && s < |v.starts|
    ensures InPlace(g, v, w, pins, from, dest, {}, s, phi[s])
  {
  }

  lemma CrossedBefore(g: Geometry, v: View, w: View, phi: map<nat, nat>, pins: set<nat>, from: Generation,
                      dest: Generation, live: set<nat>, s: nat, word: u64, word': u64)
    requires GeoOk(g) && PassResult(g, v, w, phi, live, pins, from, dest)
    requires s in phi && phi[s] == s && IsObj(v, s) && GenAt(v, s) != from && GenAt(w, s) == GenAt(v, s)
    requires WordImage(g, phi, word, word') && Crosses(g, w, s, word')
    ensures Crosses(g, v, s, word)
  {
    hide SameShape;
    ImageTarget(g, phi, word, word');
    var u := CellOf(g, word);
    assert InPlace(g, v, w, pins, from, dest, {}, u, phi[u]);
    ShapeFit(g, v, w, u, phi[u]);
  }

  // -- Rebuilding the card table --------------------------------------------

  /** Some cell of card `k` classifies as a pointer. */
  ghost predicate HoldsPointer(g: Geometry, v: View, k: nat)
    requires Shaped(g, v) && k < CARDS_PER_PAGE * g.nPages
  {
    exists c: nat :: CARD_CELLS * k <= c < CARD_CELLS * (k + 1) && c < |v.cells|
        && g.layout.classify(v.cells[c]).IsPointer()
  }

  /** What a rebuild over the whole reservation would make of card `k`. */
  ghost predicate CardTruth(g: Geometry, v: View, k: nat)
    requires Shaped(g, v) && k < CARDS_PER_PAGE * g.nPages
  {
    v.descs[k / CARDS_PER_PAGE].generation != Free && HoldsPointer(g, v, k)
  }

  /** The table a rebuild over the whole reservation would make. */
  ghost predicate CardsTrue(g: Geometry, v: View, cards: seq<bool>)
    requires Shaped(g, v)
  {
    |cards| == CARDS_PER_PAGE * g.nPages && forall k | 0 <= k < |cards| :: cards[k] == CardTruth(g, v, k)
  }

  method CardHoldsPointer(h: PageHeap, k: nat) returns (b: bool)
    requires h.Valid() && k < h.cards.Length
    ensures b == HoldsPointer(h.Geo(), h.V(), k)
  {
    hide Starts, GeoOk;
    b := false;
    for c := CARD_CELLS * k to CARD_CELLS * (k + 1)
      invariant b == exists x: nat ::
                  CARD_CELLS * k <= x < c && x < h.cells.Length && h.layout.classify(h.cells[x]).IsPointer()
    {
      if h.layout.classify(h.cells[c]).IsPointer() {
        b := true;
        assert CARD_CELLS * k <= c < c + 1 && c < h.cells.Length && h.layout.classify(h.cells[c]).IsPointer();
        break;
      }
    }
    assert h.V().cells == h.cells[..];
  }

  /** `rebuild_cards_for_old_gens`: only the pages below the high-water mark are walked,
      which is as good as walking all of them, as the pages above it are Free and their cards clean. */
  method RebuildCards(h: PageHeap)
    requires h.Inv()
    modifies h.cards
    ensures h.Inv() && Shaped(h.Geo(), h.V()) && CardsTrue(h.Geo(), h.V(), h.cards[..])
  {
    hide Starts, GeoOk, HoldsPointer, MemoryOk, RegionsOk;
    ghost var g, v := h.Geo(), h.V();
    for p := 0 to h.highWater
      invariant forall k | 0 <= k < h.cards.Length ::
        h.cards[k] == if k < CARDS_PER_PAGE * p then CardTruth(g, v, k) else old(h.cards[k])
    {
      for j := 0 to CARDS_PER_PAGE
        invariant forall k | 0 <= k < h.cards.Length ::
          h.cards[k] == if k < CARDS_PER_PAGE * p + j then CardTruth(g, v, k) else old(h.cards[k])
      {
        var k := CARDS_PER_PAGE * p + j;
        assert k / CARDS_PER_PAGE == p;
        if h.descs[p].generation == Free {
          h.cards[k] := false;
        } else {
          var b := CardHoldsPointer(h, k);
          h.cards[k] := b;
        }
      }
    }
  }

  /** A rebuilt card table covers every cross-generation pointer. */
  lemma RebuiltCover(g: Geometry, v: View, cards: seq<bool>)
    requires HeapOk(g, v) && CardsTrue(g, v, cards)
    ensures CardsCover(g, v, cards)
  {
    hide ObjOk, IsPtrOff, HoldsPointer;
    forall s: nat | s < |v.starts| && IsObj(v, s)
      ensures s + SizeOf(g, v, s) <= |v.cells| && ObjCarded(g, v, cards, s) {
      ObjFitsView(g, v, s);
      forall i: nat | i < SizeOf(g, v, s) && IsPtrOff(g, v, s, i) && Crosses(g, v, s, Field(v, s, i))
        ensures (s + i) / CARD_CELLS < |cards| && cards[(s + i) / CARD_CELLS]
      {
        ObjPage(g, v, s, i);
        PointerCard(g, v, s + i);
        assert ((s + i) / CARD_CELLS) / CARDS_PER_PAGE == s / PAGE_CELLS;
      }
    }
  }

  lemma PointerCard(g: Geometry, v: View, c: nat)
    requires Shaped(g, v) && c < |v.cells| && g.layout.classify(v.cells[c]).IsPointer()
    ensures c / CARD_CELLS < CARDS_PER_PAGE * g.nPages && HoldsPointer(g, v, c / CARD_CELLS)
  {
    assert CARD_CELLS * (c / CARD_CELLS) <= c < CARD_CELLS * (c / CARD_CELLS + 1);
  }
}
