/** What objects point to that a collection does not move. If a pointer to another generation lies on a dirty card of
    a page without gaps, the card scan finds it, and then the field is as good as a root. */
module OldFields {
  import opened Bits
  import opened Options
  import opened Pages
  import opened Objects
  import opened Marking
  import opened Cards
  import opened Moves
  import opened EvacMarking
  import opened Graphs
  import opened Placement
  import opened PassGraph
  import opened PassSteps
  import opened PassStates
  import opened Following
  import opened PassResults
  import opened RootReach
  import opened Remembered

  /** Offset `i` of the object at `s`, which is on a page without gaps, is a pointer field. */
  ghost predicate Scannable(g: Geometry, v: View, s: nat, i: nat)
    requires Shaped(g, v)
  {
    && IsObj(v, s) && s / PAGE_CELLS < |v.descs| && Tiled(g, v, s / PAGE_CELLS) && i < SizeOf(g, v, s)
    && IsPtrOff(g, v, s, i) && s + i < |v.cells|
  }

  /** The word is no pointer, or points to an object. */
  predicate Sane(g: Geometry, v: View, w: u64) { InHeap(g, w) ==> Aims(g, v, w) }

  /** The field may be relied on: if it points to another generation its card is dirty. */
  ghost predicate Watched(g: Geometry, v: View, cards: seq<bool>, s: nat, i: nat)
    requires Shaped(g, v)
  {
    && Scannable(g, v, s, i) && Sane(g, v, Field(v, s, i))
    && (Crosses(g, v, s, Field(v, s, i)) ==> (s + i) / CARD_CELLS < |cards| && cards[(s + i) / CARD_CELLS])
  }

  /** `fields` are such fields, of objects of one of the generations `gens`. */
  ghost predicate OldOnes(g: Geometry, v: View, gens: set<Generation>, fields: seq<(nat, nat)>)
    requires Shaped(g, v)
  {
    forall k | 0 <= k < |fields| :: OldOne(g, v, gens, fields[k])
  }

  ghost predicate OldOne(g: Geometry, v: View, gens: set<Generation>, f: (nat, nat))
    requires Shaped(g, v)
  {
    Scannable(g, v, f.0, f.1) && GenAt(v, f.0) in gens && Sane(g, v, Field(v, f.0, f.1))
  }

  /** The words the fields hold. */
  function WordsIn(v: View, fields: seq<(nat, nat)>): (words: seq<u64>)
    ensures |words| == |fields|
  {
    seq(|fields|, k requires 0 <= k < |fields| =>
      var c := fields[k].0 + fields[k].1; if c < |v.cells| then v.cells[c] else 0)
  }

  // -- One pass -------------------------------------------------------------

  /** The snapshot lets the scan of a pass from `from` find what objects of `gens` point to. */
  ghost predicate Overlooks(v: View, scan: Option<seq<PageDesc>>, from: Generation, gens: set<Generation>) {
    gens - {from} == {} || (scan.Some? && SeesAll(scan.value, v.descs, from))
  }

  /** What a pass has been: where everything went, what followed, which cards are dirty. */
  ghost predicate PassWas(g: Geometry, u: View, w: View, before: seq<bool>, after: seq<bool>, psi: map<nat, nat>,
                          pins: set<nat>, from: Generation, dest: Generation, straight: bool,
                          scan: Option<seq<PageDesc>>, roots1: seq<u64>, roots2: seq<u64>)
  {
    && GeoOk(g) && Shaped(g, u) && Shaped(g, w) && InRange(g, psi)
    && PassResult(g, u, w, psi, psi.Keys, pins, from, dest) && PagesTiled(g, u, w, pins, from)
    && CardedSoFar(g, u, psi, from, {}, before, after) && |before| == CARDS_PER_PAGE * g.nPages
    && psi.Keys == ToKeep(g, u, before, roots1, scan, from, pins)
    && AllTracked(g, u, w, psi, psi.Keys, pins, from, dest, straight, CardRoots(g, u, before, scan, from), roots1,
                  roots2)
  }

  lemma PassWasParts(g: Geometry, u: View, w: View, before: seq<bool>, after: seq<bool>, psi: map<nat, nat>,
                     pins: set<nat>, from: Generation, dest: Generation, straight: bool, scan: Option<seq<PageDesc>>,
                     roots1: seq<u64>, roots2: seq<u64>)
    requires PassWas(g, u, w, before, after, psi, pins, from, dest, straight, scan, roots1, roots2)
    ensures GeoOk(g) && Shaped(g, u) && Shaped(g, w) && InRange(g, psi)
    ensures PassResult(g, u, w, psi, psi.Keys, pins, from, dest)
    ensures CardedSoFar(g, u, psi, from, {}, before, after) && |before| == CARDS_PER_PAGE * g.nPages
    ensures psi.Keys == ToKeep(g, u, before, roots1, scan, from, pins)
    ensures FieldsTracked(g, u, w, psi, psi.Keys, pins, from, dest, straight) && RootsTracked(g, psi, roots1, roots2)
    ensures CardsTracked(g, u, w, psi, CardRoots(g, u, before, scan, from), from)
    ensures LedOn(g, u, w, psi, psi.Keys, pins, from, dest, straight, roots1, roots2)
  {
    hide PassResult, PagesTiled, CardedSoFar, ToKeep, FieldsTracked, RootsTracked, CardsTracked, CardRoots, GeoOk;
  }

  /** An object outside the source stays where it is. */
  lemma StaysPut(g: Geometry, u: View, w: View, psi: map<nat, nat>, pins: set<nat>, from: Generation,
                 dest: Generation, cards: seq<bool>, roots: seq<u64>, scan: Option<seq<PageDesc>>, s: nat)
    requires PassResult(g, u, w, psi, psi.Keys, pins, from, dest) && Shaped(g, u) && Shaped(g, w)
    requires psi.Keys == ToKeep(g, u, cards, roots, scan, from, pins)
    requires IsObj(u, s) && s / PAGE_CELLS < |u.descs| && GenAt(u, s) != from
    ensures s in psi && psi[s] == s && SameShape(g, u, w, s, s) && s / PAGE_CELLS < |w.descs|
    ensures GenAt(w, s) == GenAt(u, s)
  {
    hide EvacSeeds, Reachable, SameShape, CardRoots;
    assert s in AllObjs(u) && s in psi.Keys;
    assert InPlace(g, u, w, pins, from, dest, {}, s, psi[s]);
  }

  /** The card scan comes to a watched field that points into the source. */
  lemma WatchedIsSeen(g: Geometry, u: View, cards: seq<bool>, scan: Option<seq<PageDesc>>, from: Generation, s: nat,
                      i: nat)
    requires HeapOk(g, u) && Shaped(g, u) && Watched(g, u, cards, s, i) && |cards| == CARDS_PER_PAGE * g.nPages
    requires GenAt(u, s) != from && scan.Some? && SeesAll(scan.value, u.descs, from)
    requires IntoGen(g, u, from, Field(u, s, i))
    ensures s + i in CardRoots(g, u, cards, scan, from)
  {
    hide Tiled, SizeOf, IsPtrOff, CardRoots, SeesAll;
    assert Crosses(g, u, s, Field(u, s, i));
    CardFinds(g, u, cards, scan.value, from, s, i);
  }

  /** So what it points to is kept. */
  lemma WatchedKeeps(g: Geometry, u: View, cards: seq<bool>, roots: seq<u64>, scan: Option<seq<PageDesc>>,
                     from: Generation, pins: set<nat>, s: nat, i: nat)
    requires HeapOk(g, u) && Shaped(g, u) && Watched(g, u, cards, s, i) && |cards| == CARDS_PER_PAGE * g.nPages
    requires GenAt(u, s) != from && scan.Some? && SeesAll(scan.value, u.descs, from)
    requires InHeap(g, Field(u, s, i))
    ensures CellOf(g, Field(u, s, i)) in ToKeep(g, u, cards, roots, scan, from, pins)
  {
    hide Scannable, CardRoots, SeesAll, Reachable, PinsIn, CrossPinPtrs, HeapOk, SeedCells;
    WatchedFits(g, u, cards, s, i);
    var w, visited := Field(u, s, i), CardRoots(g, u, cards, scan, from);
    var t := CellOf(g, w);
    assert t in AllObjs(u);
    if GenAt(u, t) == from {
      WatchedIsSeen(g, u, cards, scan, from, s, i);
      assert w in WordsAt(u, visited) && Follows(g, u, from, w);
      SeedOf(g, u, from, WordsAt(u, visited), w);
      ReachSeed(g, u, from, EvacSeeds(g, u, from, roots, visited, pins), t);
    }
  }

  lemma SeedOf(g: Geometry, v: View, gen: Generation, words: set<u64>, w: u64)
    requires w in words && Follows(g, v, gen, w)
    ensures InHeap(g, w) && CellOf(g, w) in SeedCells(g, v, gen, words)
  {
  }

  /** And the field follows it. */
  lemma WatchedFollows(g: Geometry, u: View, w: View, before: seq<bool>, after: seq<bool>, psi: map<nat, nat>,
                       pins: set<nat>, from: Generation, dest: Generation, straight: bool,
                       scan: Option<seq<PageDesc>>, roots1: seq<u64>, roots2: seq<u64>, s: nat, i: nat)
    requires PassWas(g, u, w, before, after, psi, pins, from, dest, straight, scan, roots1, roots2) && HeapOk(g, u)
    requires Shaped(g, u) && Watched(g, u, before, s, i) && GenAt(u, s) != from
    requires scan.Some? && SeesAll(scan.value, u.descs, from)
    ensures s + i < |w.cells| && Tracked(g, psi, Field(u, s, i), Field(w, s, i))
  {
    hide PassWas, Tiled, SizeOf, IsPtrOff, CardRoots, SeesAll, PassResult, HeapOk, Tracked, ToKeep, SameShape;
    PassWasParts(g, u, w, before, after, psi, pins, from, dest, straight, scan, roots1, roots2);
    StaysPut(g, u, w, psi, pins, from, dest, before, roots1, scan, s);
    if IntoGen(g, u, from, Field(u, s, i)) {
      WatchedIsSeen(g, u, before, scan, from, s, i);
      assert Looked(g, u, CardRoots(g, u, before, scan, from), from, s, i);
    } else {
      assert Tended(g, u, psi.Keys, pins, from, dest, straight, s, i);
    }
  }

  /** It goes on being watched. */
  lemma WatchedOn(g: Geometry, u: View, w: View, before: seq<bool>, after: seq<bool>, psi: map<nat, nat>,
                  pins: set<nat>, from: Generation, dest: Generation, straight: bool, scan: Option<seq<PageDesc>>,
                  roots1: seq<u64>, roots2: seq<u64>, s: nat, i: nat)
    requires PassWas(g, u, w, before, after, psi, pins, from, dest, straight, scan, roots1, roots2) && HeapOk(g, u)
    requires Shaped(g, u) && Watched(g, u, before, s, i) && GenAt(u, s) != from
    requires scan.Some? && SeesAll(scan.value, u.descs, from)
    ensures Shaped(g, w) && Watched(g, w, after, s, i)
  {
    hide PassWas, Tiled, SizeOf, IsPtrOff, CardRoots, SeesAll, PassResult, HeapOk, ToKeep, SameShape, PagesTiled,
      CardedSoFar, FieldsTracked, CardsTracked, RootsTracked, WordImage, LayoutAt;
    PassWasParts(g, u, w, before, after, psi, pins, from, dest, straight, scan, roots1, roots2);
    StaysPut(g, u, w, psi, pins, from, dest, before, roots1, scan, s);
    WatchedFollows(g, u, w, before, after, psi, pins, from, dest, straight, scan, roots1, roots2, s, i);
    ShapeOffsets(g, u, w, s, s, i);
    ShapeFit(g, u, w, s, s);
    StillTiled(g, u, w, before, after, psi, pins, from, dest, straight, scan, roots1, roots2, s / PAGE_CELLS);
    var word, word' := Field(u, s, i), Field(w, s, i);
    if InHeap(g, word) {
      WatchedKeeps(g, u, before, roots1, scan, from, pins, s, i);
      LeadsOn(g, u, w, psi, pins, from, dest, GenAt(u, CellOf(g, word)), word, word');
      if Crosses(g, w, s, word') {
        CrossedBefore(g, u, w, psi, pins, from, dest, psi.Keys, s, word, word');
        StillDirty(g, u, psi, from, before, after, (s + i) / CARD_CELLS);
      }
    }
  }

  lemma StillDirty(g: Geometry, u: View, psi: map<nat, nat>, from: Generation, before: seq<bool>, after: seq<bool>,
                   k: nat)
    requires Shaped(g, u) && CardedSoFar(g, u, psi, from, {}, before, after) && k < |before| && before[k]
    ensures k < |after| && after[k]
  {
  }

  lemma StillTiled(g: Geometry, u: View, w: View, before: seq<bool>, after: seq<bool>, psi: map<nat, nat>,
                   pins: set<nat>, from: Generation, dest: Generation, straight: bool, scan: Option<seq<PageDesc>>,
                   roots1: seq<u64>, roots2: seq<u64>, p: nat)
    requires PassWas(g, u, w, before, after, psi, pins, from, dest, straight, scan, roots1, roots2)
    requires p < |u.descs| && Shaped(g, u) && Tiled(g, u, p) && u.descs[p].generation != from
    ensures p < |w.descs| && Shaped(g, w) && Tiled(g, w, p)
  {
    hide Tiled, PassResult, CardedSoFar, ToKeep, AllTracked, CardRoots, GeoOk;
  }

  /** As roots they would make no difference to what the pass keeps, and they follow as the roots do. */
  lemma OldAsRoots(g: Geometry, u: View, w: View, before: seq<bool>, after: seq<bool>, psi: map<nat, nat>,
                   pins: set<nat>, from: Generation, dest: Generation, straight: bool, scan: Option<seq<PageDesc>>,
                   roots1: seq<u64>, roots2: seq<u64>, fields: seq<(nat, nat)>)
    requires PassWas(g, u, w, before, after, psi, pins, from, dest, straight, scan, roots1, roots2) && HeapOk(g, u)
    requires Shaped(g, u) && scan.Some? && SeesAll(scan.value, u.descs, from)
    requires forall k | 0 <= k < |fields| ::
               Watched(g, u, before, fields[k].0, fields[k].1) && GenAt(u, fields[k].0) != from
    ensures psi.Keys == ToKeep(g, u, before, roots1 + WordsIn(u, fields), scan, from, pins)
    ensures LedOn(g, u, w, psi, psi.Keys, pins, from, dest, straight, roots1 + WordsIn(u, fields),
                  roots2 + WordsIn(w, fields))
  {
    hide PassWas, Watched, CardRoots, SeesAll, PassResult, HeapOk, ToKeep, FieldsTracked, CardsTracked, Tracked;
    PassWasParts(g, u, w, before, after, psi, pins, from, dest, straight, scan, roots1, roots2);
    var words, words' := WordsIn(u, fields), WordsIn(w, fields);
    assert RootsTracked(g, psi, roots1 + words, roots2 + words') by {
      forall k | 0 <= k < |fields| ensures Tracked(g, psi, words[k], words'[k]) {
        var (s, i) := fields[k];
        WatchedFollows(g, u, w, before, after, psi, pins, from, dest, straight, scan, roots1, roots2, s, i);
        WatchedFits(g, u, before, s, i);
      }
    }
    SameWithOlds(g, u, before, roots1, scan, from, pins, fields);
  }

  lemma WatchedFits(g: Geometry, v: View, cards: seq<bool>, s: nat, i: nat)
    requires Shaped(g, v) && Watched(g, v, cards, s, i)
    ensures s + i < |v.cells|
  {
    hide Tiled, SizeOf, IsPtrOff;
  }

  lemma SameWithOlds(g: Geometry, u: View, cards: seq<bool>, roots: seq<u64>, scan: Option<seq<PageDesc>>,
                     from: Generation, pins: set<nat>, fields: seq<(nat, nat)>)
    requires HeapOk(g, u) && Shaped(g, u) && |cards| == CARDS_PER_PAGE * g.nPages
    requires scan.Some? && SeesAll(scan.value, u.descs, from)
    requires forall k | 0 <= k < |fields| ::
               Watched(g, u, cards, fields[k].0, fields[k].1) && GenAt(u, fields[k].0) != from
    ensures ToKeep(g, u, cards, roots + WordsIn(u, fields), scan, from, pins) ==
            ToKeep(g, u, cards, roots, scan, from, pins)
  {
    hide SeedCells, CardRoots, HeapOk, SeesAll, Watched, WordsOf, WordsAt, PinsIn, CrossPinPtrs, KeptObjs, WordsIn;
    var visited, words := CardRoots(g, u, cards, scan, from), WordsIn(u, fields);
    WordsJoined(roots, words);
    SeedsJoined(g, u, from, WordsOf(roots), WordsOf(words));
    OldsSeen(g, u, cards, scan, from, fields);
    assert EvacSeeds(g, u, from, roots + words, visited, pins) == EvacSeeds(g, u, from, roots, visited, pins);
  }

  lemma OldsSeen(g: Geometry, u: View, cards: seq<bool>, scan: Option<seq<PageDesc>>, from: Generation,
                 fields: seq<(nat, nat)>)
    requires HeapOk(g, u) && Shaped(g, u) && |cards| == CARDS_PER_PAGE * g.nPages
    requires scan.Some? && SeesAll(scan.value, u.descs, from)
    requires forall k | 0 <= k < |fields| ::
               Watched(g, u, cards, fields[k].0, fields[k].1) && GenAt(u, fields[k].0) != from
    ensures SeedCells(g, u, from, WordsOf(WordsIn(u, fields))) <=
            SeedCells(g, u, from, WordsAt(u, CardRoots(g, u, cards, scan, from)))
  {
    hide CardRoots, HeapOk, SeesAll, Scannable, Follows, WordsAt;
    var visited, words := CardRoots(g, u, cards, scan, from), WordsIn(u, fields);
    forall c | c in SeedCells(g, u, from, WordsOf(words)) ensures c in SeedCells(g, u, from, WordsAt(u, visited)) {
      SeedWord(g, u, from, WordsOf(words), c);
      var w :| w in WordsOf(words) && Follows(g, u, from, w) && InHeap(g, w) && CellOf(g, w) == c;
      var k :| 0 <= k < |words| && words[k] == w;
      OldSeen(g, u, cards, scan, from, fields[k].0, fields[k].1);
    }
  }

  lemma OldSeen(g: Geometry, u: View, cards: seq<bool>, scan: Option<seq<PageDesc>>, from: Generation, s: nat, i: nat)
    requires HeapOk(g, u) && Shaped(g, u) && |cards| == CARDS_PER_PAGE * g.nPages
    requires scan.Some? && SeesAll(scan.value, u.descs, from) && Watched(g, u, cards, s, i) && GenAt(u, s) != from
    ensures s + i < |u.cells|
    ensures Follows(g, u, from, Field(u, s, i)) ==>
              InHeap(g, Field(u, s, i))
              && CellOf(g, Field(u, s, i)) in SeedCells(g, u, from, WordsAt(u, CardRoots(g, u, cards, scan, from)))
  {
    hide CardRoots, HeapOk, SeesAll, Scannable, SeedCells;
    WatchedFits(g, u, cards, s, i);
    var w, visited := Field(u, s, i), CardRoots(g, u, cards, scan, from);
    if Follows(g, u, from, w) {
      WatchedIsSeen(g, u, cards, scan, from, s, i);
      assert w in WordsAt(u, visited);
      SeedOf(g, u, from, WordsAt(u, visited), w);
    }
  }

  lemma WordsJoined(a: seq<u64>, b: seq<u64>)
    ensures WordsOf(a + b) == WordsOf(a) + WordsOf(b)
  {
    forall w | w in WordsOf(a) + WordsOf(b) ensures w in WordsOf(a + b) {
      if w in WordsOf(a) {
        var i :| 0 <= i < |a| && a[i] == w;
        assert (a + b)[i] == w;
      } else {
        var i :| 0 <= i < |b| && b[i] == w;
        assert (a + b)[|a| + i] == w;
      }
    }
  }

  lemma SeedsJoined(g: Geometry, v: View, gen: Generation, a: set<u64>, b: set<u64>)
    ensures SeedCells(g, v, gen, a + b) == SeedCells(g, v, gen, a) + SeedCells(g, v, gen, b)
  {
    hide Follows;
  }

  // -- A collection ---------------------------------------------------------

  /** From `v` to `w`: the objects of the generations that are `still` are where they were, and their fields, as far
      as they may be relied on, are as good as roots. */
  ghost predicate OldsHeld(g: Geometry, v: View, w: View, phi: map<nat, nat>, to: Generation -> Generation,
                           roots0: seq<u64>, roots: seq<u64>, pins: set<nat>, reach: Reach)
    requires GeoOk(g) && Shaped(g, v) && Shaped(g, w) && InRange(g, phi)
  {
    && (forall s: nat | OfGens(v, reach.still, s) :: s in phi && phi[s] == s)
    && (reach.watched ==> forall fields | OldOnes(g, v, reach.still, fields) ::
          HeldWith(g, v, w, phi, to, roots0, roots, pins, reach, fields))
  }

  predicate OfGens(v: View, gens: set<Generation>, s: nat) {
    IsObj(v, s) && s / PAGE_CELLS < |v.descs| && GenAt(v, s) in gens
  }

  /** The words of `fields` counted among the roots. */
  ghost predicate HeldWith(g: Geometry, v: View, w: View, phi: map<nat, nat>, to: Generation -> Generation,
                           roots0: seq<u64>, roots: seq<u64>, pins: set<nat>, reach: Reach, fields: seq<(nat, nat)>)
    requires GeoOk(g) && Shaped(g, v) && Shaped(g, w) && InRange(g, phi)
  {
    && RootsHeld(g, v, phi, roots0 + WordsIn(v, fields), roots + WordsIn(w, fields))
    && ReachHeld(g, v, w, phi, to, roots0 + WordsIn(v, fields), roots + WordsIn(w, fields), pins, reach)
  }

  /** In the middle of a collection: those objects and fields are as they were, and the fields still watched. */
  ghost predicate OldsWatched(g: Geometry, v: View, u: View, cards: seq<bool>, reach: Reach)
    requires Shaped(g, v) && Shaped(g, u)
  {
    && (forall s: nat | OfGens(v, reach.still, s) :: OfGens(u, reach.still, s) && GenAt(u, s) == GenAt(v, s))
    && (reach.watched ==> forall s: nat, i: nat | OldOne(g, v, reach.still, (s, i)) :: Watched(g, u, cards, s, i))
  }

  /** At the start. */
  lemma OldsStart(g: Geometry, v: View, cards: seq<bool>, roots: seq<u64>, pins: set<nat>, watched: bool)
    requires HeapOk(g, v) && GeoOk(g) && Shaped(g, v) && InRange(g, Staying(AllObjs(v)))
    requires watched ==> CardsCover(g, v, cards)
    ensures OldsHeld(g, v, v, Staying(AllObjs(v)), gen => gen, roots, roots, pins, AllReach(watched))
    ensures OldsWatched(g, v, v, cards, AllReach(watched))
  {
    hide ReachHeld, RootsHeld, HeapOk, Tiled, SizeOf, IsPtrOff;
    forall fields | OldOnes(g, v, AllReach(watched).still, fields)
      ensures HeldWith(g, v, v, Staying(AllObjs(v)), gen => gen, roots, roots, pins, AllReach(watched), fields) {
      ReachStart(g, v, roots + WordsIn(v, fields), pins, watched);
      RootsStart(g, v, roots + WordsIn(v, fields));
    }
    forall s: nat, i: nat | OldOne(g, v, AllReach(watched).still, (s, i)) && watched
      ensures Watched(g, v, cards, s, i) {
      assert ObjCarded(g, v, cards, s);
    }
  }

  lemma RootsStart(g: Geometry, v: View, roots: seq<u64>)
    requires GeoOk(g) && Shaped(g, v) && InRange(g, Staying(AllObjs(v)))
    ensures RootsHeld(g, v, Staying(AllObjs(v)), roots, roots)
  {
  }

  /** One pass on, the objects and fields are watched still. */
  lemma WatchedNext(g: Geometry, v: View, u: View, w: View, before: seq<bool>, after: seq<bool>, psi: map<nat, nat>,
                    pins: set<nat>, from: Generation, dest: Generation, straight: bool, scan: Option<seq<PageDesc>>,
                    roots1: seq<u64>, roots2: seq<u64>, to: Generation -> Generation, reach: Reach)
    requires PassWas(g, u, w, before, after, psi, pins, from, dest, straight, scan, roots1, roots2) && HeapOk(g, u)
    requires Shaped(g, v) && Shaped(g, u) && Shaped(g, w) && OldsWatched(g, v, u, before, reach)
    requires reach.watched ==> Overlooks(u, scan, from, reach.still)
    ensures OldsWatched(g, v, w, after, ReachAfter(reach, to, from, dest, straight))
  {
    hide PassWas, Watched, PassResult, HeapOk, ToKeep, SeesAll, Scannable, SameShape;
    var next := ReachAfter(reach, to, from, dest, straight);
    forall s: nat | OfGens(v, next.still, s) ensures OfGens(w, next.still, s) && GenAt(w, s) == GenAt(v, s) {
      assert OfGens(v, reach.still, s);
      PassWasParts(g, u, w, before, after, psi, pins, from, dest, straight, scan, roots1, roots2);
      StaysPut(g, u, w, psi, pins, from, dest, before, roots1, scan, s);
      ShapeFit(g, u, w, s, s);
    }
    if next.watched {
      forall s: nat, i: nat | OldOne(g, v, next.still, (s, i)) ensures Watched(g, w, after, s, i) {
        OldIs(g, v, next.still, (s, i));
        assert OldOne(g, v, reach.still, (s, i)) && OfGens(v, reach.still, s) && GenAt(u, s) in reach.still - {from};
        WatchedOn(g, u, w, before, after, psi, pins, from, dest, straight, scan, roots1, roots2, s, i);
      }
    }
  }

  lemma OldIs(g: Geometry, v: View, gens: set<Generation>, f: (nat, nat))
    requires Shaped(g, v) && OldOne(g, v, gens, f)
    ensures OfGens(v, gens, f.0)
  {
    hide Tiled, SizeOf, IsPtrOff;
  }

  lemma MoreOlds(g: Geometry, v: View, fewer: set<Generation>, more: set<Generation>, f: (nat, nat))
    requires Shaped(g, v) && OldOne(g, v, fewer, f) && fewer <= more
    ensures OldOne(g, v, more, f) && OfGens(v, fewer, f.0) && fewer != {}
  {
    hide Tiled, SizeOf, IsPtrOff;
    assert GenAt(v, f.0) in fewer;
  }

  lemma WatchedNow(g: Geometry, v: View, u: View, cards: seq<bool>, reach: Reach, f: (nat, nat))
    requires Shaped(g, v) && Shaped(g, u) && OldsWatched(g, v, u, cards, reach) && reach.watched
    requires OldOne(g, v, reach.still, f)
    ensures Watched(g, u, cards, f.0, f.1) && OfGens(u, reach.still, f.0) && GenAt(u, f.0) == GenAt(v, f.0)
  {
    hide Tiled, SizeOf, IsPtrOff, Watched;
    assert f == (f.0, f.1) && OfGens(v, reach.still, f.0);
  }

  lemma NoFields(v: View)
    ensures WordsIn(v, []) == []
  {
  }

  /** Pin bytes are not part of it. */
  lemma OldsSansPinsAfter(g: Geometry, v: View, u: View, w: View, phi: map<nat, nat>, to: Generation -> Generation,
                          roots0: seq<u64>, roots: seq<u64>, pins: set<nat>, reach: Reach)
    requires GeoOk(g) && InRange(g, phi) && PinBytesOnly(u, w) && Shaped(g, v) && Shaped(g, u) && Shaped(g, w)
    requires OldsHeld(g, v, u, phi, to, roots0, roots, pins, reach)
    ensures OldsHeld(g, v, w, phi, to, roots0, roots, pins, reach)
  {
    hide OldOnes, ReachHeld, GeoOk, RootsHeld;
    if reach.watched {
      forall fields | OldOnes(g, v, reach.still, fields)
        ensures HeldWith(g, v, w, phi, to, roots0, roots, pins, reach, fields) {
        assert HeldWith(g, v, u, phi, to, roots0, roots, pins, reach, fields);
        ReachSansPinsAfter(g, v, u, w, phi, to, roots0 + WordsIn(v, fields), roots + WordsIn(u, fields), pins, reach);
      }
    }
  }

  lemma RootsSansPins(g: Geometry, v: View, u: View, phi: map<nat, nat>, roots0: seq<u64>, roots: seq<u64>)
    requires GeoOk(g) && InRange(g, phi) && PinBytesOnly(v, u) && RootsHeld(g, u, phi, roots0, roots)
    ensures RootsHeld(g, v, phi, roots0, roots)
  {
    forall i | 0 <= i < |roots0| ensures RootHeld(g, v, phi, roots0[i], roots[i]) {
      assert RootHeld(g, u, phi, roots0[i], roots[i]);
    }
  }

  lemma OldsSansPinsBefore(g: Geometry, v: View, u: View, w: View, phi: map<nat, nat>, to: Generation -> Generation,
                           roots0: seq<u64>, roots: seq<u64>, pins: set<nat>, reach: Reach)
    requires GeoOk(g) && InRange(g, phi) && PinBytesOnly(v, u) && Shaped(g, v) && Shaped(g, u) && Shaped(g, w)
    requires OldsHeld(g, u, w, phi, to, roots0, roots, pins, reach)
    ensures OldsHeld(g, v, w, phi, to, roots0, roots, pins, reach)
  {
    hide OldOne, ReachHeld, GeoOk, RootsHeld;
    forall s: nat | OfGens(v, reach.still, s) ensures s in phi && phi[s] == s { assert OfGens(u, reach.still, s); }
    if reach.watched {
      forall fields | OldOnes(g, v, reach.still, fields)
        ensures HeldWith(g, v, w, phi, to, roots0, roots, pins, reach, fields) {
        forall k | 0 <= k < |fields| ensures OldOne(g, u, reach.still, fields[k]) {
          OldSansPins(g, v, u, reach.still, fields[k]);
        }
        assert HeldWith(g, u, w, phi, to, roots0, roots, pins, reach, fields)
            && WordsIn(u, fields) == WordsIn(v, fields);
        ReachSansPinsBefore(g, v, u, w, phi, to, roots0 + WordsIn(v, fields), roots + WordsIn(w, fields), pins, reach);
        RootsSansPins(g, v, u, phi, roots0 + WordsIn(v, fields), roots + WordsIn(w, fields));
      }
    }
  }

  lemma OldSansPins(g: Geometry, v: View, u: View, gens: set<Generation>, f: (nat, nat))
    requires PinBytesOnly(v, u) && Shaped(g, v) && Shaped(g, u) && OldOne(g, v, gens, f)
    ensures OldOne(g, u, gens, f)
  {
    hide Tiled;
    TiledSansPins(g, v, u, f.0 / PAGE_CELLS);
  }
}
