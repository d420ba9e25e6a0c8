/** What the roots and the pins reach within a generation: a pass keeps it, and where the pass is straight it is
    reached from them afterwards as well. */
module RootReach {
  import opened Bits
  import opened Options
  import opened Pages
  import opened Objects
  import opened Marking
  import opened Cards
  import opened Moves
  import opened EvacMarking
  import opened Graphs
  import opened Placement
  import opened PassGraph
  import opened PassStates
  import opened Following
  import opened PassResults

  /** The object at `c` is reached from the roots and the pins by pointers of objects of its generation. */
  ghost predicate FromRoots(g: Geometry, v: View, gen: Generation, roots: seq<u64>, pins: set<nat>, c: nat)
    requires Shaped(g, v)
  {
    Reachable(g, v, gen, EvacSeeds(g, v, gen, roots, {}, pins), c)
  }

  /** Nothing of `gen` that the roots and the pins reach has been lost. */
  ghost predicate KeepsReach(g: Geometry, v: View, phi: map<nat, nat>, gen: Generation, roots: seq<u64>, pins: set<nat>)
    requires Shaped(g, v)
  {
    forall c: nat | FromRoots(g, v, gen, roots, pins, c) :: c in phi
  }

  /** All of `gen` that the roots and the pins reached they reach still, now within `gen'`. */
  ghost predicate CarriesReach(g: Geometry, v: View, w: View, phi: map<nat, nat>, gen: Generation, gen': Generation,
                               roots0: seq<u64>, roots: seq<u64>, pins: set<nat>)
    requires Shaped(g, v) && Shaped(g, w)
  {
    forall c: nat | FromRoots(g, v, gen, roots0, pins, c) :: c in phi && FromRoots(g, w, gen', roots, pins, phi[c])
  }

  /** Every root has followed its target, and none that points to an object has lost it. */
  ghost predicate RootsHeld(g: Geometry, v: View, phi: map<nat, nat>, roots0: seq<u64>, roots: seq<u64>)
    requires GeoOk(g) && InRange(g, phi)
  {
    |roots| == |roots0| && forall i | 0 <= i < |roots0| :: RootHeld(g, v, phi, roots0[i], roots[i])
  }

  predicate RootHeld(g: Geometry, v: View, phi: map<nat, nat>, w: u64, w': u64)
    requires GeoOk(g) && InRange(g, phi)
  {
    Followed(g, phi, w, w') && (Aims(g, v, w) ==> CellOf(g, w) in phi)
  }

  /** The generation of each object that is left is `to` of the one it was in. */
  ghost predicate GensBy(v: View, w: View, phi: map<nat, nat>, to: Generation -> Generation) {
    forall s | s in phi :: s / PAGE_CELLS < |v.descs| && phi[s] / PAGE_CELLS < |w.descs|
        && GenAt(w, phi[s]) == to(GenAt(v, s))
  }

  function PassGen(from: Generation, dest: Generation): Generation -> Generation {
    gen => if gen == from then dest else gen
  }

  // -- What one pass keeps --------------------------------------------------

  lemma SeedIsObj(g: Geometry, v: View, gen: Generation, words: set<u64>, s: nat)
    requires s in SeedCells(g, v, gen, words)
    ensures s in AllObjs(v) && s / PAGE_CELLS < |v.descs| && GenAt(v, s) == gen
  {
  }

  lemma SeedWord(g: Geometry, v: View, gen: Generation, words: set<u64>, s: nat)
    requires s in SeedCells(g, v, gen, words)
    ensures exists w :: w in words && Follows(g, v, gen, w) && InHeap(g, w) && CellOf(g, w) == s
  {
    var w :| w in words && Follows(g, v, gen, w) && CellOf(g, w) == s;
    assert w in words && Follows(g, v, gen, w) && InHeap(g, w) && CellOf(g, w) == s;
  }

  lemma SeedsObjs(g: Geometry, v: View, gen: Generation, roots: seq<u64>, visited: set<nat>, pins: set<nat>, s: nat)
    requires Shaped(g, v) && s in EvacSeeds(g, v, gen, roots, visited, pins)
    ensures s in AllObjs(v) && s / PAGE_CELLS < |v.descs| && GenAt(v, s) == gen
  {
    hide SeedCells, WordsAt, CrossPinPtrs;
    if s in SeedCells(g, v, gen, WordsOf(roots)) { SeedIsObj(g, v, gen, WordsOf(roots), s); }
    if s in SeedCells(g, v, gen, WordsAt(v, visited)) { SeedIsObj(g, v, gen, WordsAt(v, visited), s); }
    var cells := CrossPinPtrs(g, v, pins, gen);
    if s in SeedCells(g, v, gen, WordsAt(v, cells)) { SeedIsObj(g, v, gen, WordsAt(v, cells), s); }
  }

  lemma EdgeIsObj(g: Geometry, v: View, gen: Generation, s: nat, t: nat)
    requires Edge(g, v, gen, s, t)
    ensures t in AllObjs(v) && t / PAGE_CELLS < |v.descs| && GenAt(v, t) == gen
  {
  }

  lemma ReachedObjs(g: Geometry, v: View, gen: Generation, roots: seq<u64>, visited: set<nat>, pins: set<nat>, c: nat)
    requires Shaped(g, v) && Reachable(g, v, gen, EvacSeeds(g, v, gen, roots, visited, pins), c)
    ensures c in AllObjs(v) && c / PAGE_CELLS < |v.descs| && GenAt(v, c) == gen
  {
    hide EvacSeeds, Edge;
    var seeds := EvacSeeds(g, v, gen, roots, visited, pins);
    var path :| IsPath(g, v, gen, seeds, path) && path[|path| - 1] == c;
    var inside := set s | s in AllObjs(v) && s / PAGE_CELLS < |v.descs| && GenAt(v, s) == gen;
    forall s | s in seeds ensures s in inside { SeedsObjs(g, v, gen, roots, visited, pins, s); }
    forall s, t | s in inside && Edge(g, v, gen, s, t) ensures t in inside { EdgeIsObj(g, v, gen, s, t); }
    ReachInside(g, v, gen, seeds, inside, path);
  }

  lemma MoreSeeds(g: Geometry, v: View, gen: Generation, roots: seq<u64>, visited: set<nat>, pins: set<nat>, c: nat)
    requires Shaped(g, v) && FromRoots(g, v, gen, roots, pins, c)
    ensures Reachable(g, v, gen, EvacSeeds(g, v, gen, roots, visited, pins), c)
  {
    var fewer, more := EvacSeeds(g, v, gen, roots, {}, pins), EvacSeeds(g, v, gen, roots, visited, pins);
    assert WordsAt(v, {}) == {} && SeedCells(g, v, gen, {}) == {};
    assert fewer <= more;
    hide EvacSeeds, Edge;
    var path :| IsPath(g, v, gen, fewer, path) && path[|path| - 1] == c;
    assert IsPath(g, v, gen, more, path);
  }

  lemma PassKeepsReach(g: Geometry, v: View, cards: seq<bool>, roots: seq<u64>, scan: Option<seq<PageDesc>>,
                       from: Generation, pins: set<nat>, psi: map<nat, nat>, gen: Generation)
    requires Shaped(g, v) && psi.Keys == ToKeep(g, v, cards, roots, scan, from, pins)
    ensures KeepsReach(g, v, psi, gen, roots, pins)
  {
    hide EvacSeeds, Reachable, CardRoots;
    forall c: nat | FromRoots(g, v, gen, roots, pins, c) ensures c in psi {
      ReachedObjs(g, v, gen, roots, {}, pins, c);
      if gen == from { MoreSeeds(g, v, gen, roots, CardRoots(g, v, cards, scan, from), pins, c); }
      assert c in psi.Keys;
    }
  }

  /** A word that leads to an object of `gen` leads on to what that has become. */
  lemma LeadsOn(g: Geometry, v: View, w: View, psi: map<nat, nat>, pins: set<nat>, from: Generation, dest: Generation,
                gen: Generation, word: u64, word': u64)
    requires GeoOk(g) && PassResult(g, v, w, psi, psi.Keys, pins, from, dest)
    requires Follows(g, v, gen, word) && CellOf(g, word) in psi && Tracked(g, psi, word, word')
    ensures Follows(g, w, if gen == from then dest else gen, word') && CellOf(g, word') == psi[CellOf(g, word)]
  {
    hide SameShape;
    var c := CellOf(g, word);
    assert InPlace(g, v, w, pins, from, dest, {}, c, psi[c]);
    ShapeFit(g, v, w, c, psi[c]);
    ImageTarget(g, psi, word, word');
    AimLaw(g, word, psi[c]);
  }
  /** A field that the pass tends to leads on as well. */
  lemma FieldLeadsOn(g: Geometry, v: View, w: View, psi: map<nat, nat>, pins: set<nat>, from: Generation,
                     dest: Generation, straight: bool, gen: Generation, s: nat, i: nat)
    requires GeoOk(g) && HeapOk(g, v) && PassResult(g, v, w, psi, psi.Keys, pins, from, dest)
    requires FieldsTracked(g, v, w, psi, psi.Keys, pins, from, dest, straight)
    requires s in psi && s / PAGE_CELLS < |v.descs| && FieldOf(g, v, psi.Keys, s, i)
    requires s in pins || (GenAt(v, s) == gen && (gen != from || from == dest || straight))
    requires Follows(g, v, gen, Field(v, s, i)) && CellOf(g, Field(v, s, i)) in psi
    ensures psi[s] + i < |w.cells| && IsPtrOff(g, w, psi[s], i)
    ensures IsObj(w, psi[s]) && i < SizeOf(g, w, psi[s])
    ensures Follows(g, w, if gen == from then dest else gen, Field(w, psi[s], i))
    ensures CellOf(g, Field(w, psi[s], i)) == psi[CellOf(g, Field(v, s, i))]
  {
    hide SameShape, SizeOf, IsPtrOff, PassResult, Tracked, LayoutAt;
    ResultPlace(g, v, w, psi, pins, from, dest, s);
    FollowsIn(g, v, gen, Field(v, s, i));
    assert Tended(g, v, psi.Keys, pins, from, dest, straight, s, i);
    ShapeFit(g, v, w, s, psi[s]);
    ShapeOffsets(g, v, w, s, psi[s], i);
    LeadsOn(g, v, w, psi, pins, from, dest, gen, Field(v, s, i), Field(w, psi[s], i));
  }

  lemma FollowsIn(g: Geometry, v: View, gen: Generation, w: u64)
    requires Follows(g, v, gen, w)
    ensures InHeap(g, w) && IsObj(v, CellOf(g, w)) && CellOf(g, w) in AllObjs(v)
    ensures CellOf(g, w) / PAGE_CELLS < |v.descs| && GenAt(v, CellOf(g, w)) == gen
  {
  }

  lemma ResultPlace(g: Geometry, v: View, w: View, psi: map<nat, nat>, pins: set<nat>, from: Generation,
                    dest: Generation, s: nat)
    requires PassResult(g, v, w, psi, psi.Keys, pins, from, dest) && s in psi
    ensures Shaped(g, v) && Shaped(g, w) && IsObj(v, s) && s < |v.starts|
    ensures SameShape(g, v, w, s, psi[s]) && (s in pins ==> psi[s] == s) && s / PAGE_CELLS < |v.descs|
    ensures psi[s] / PAGE_CELLS < |w.descs| && psi[s] in AllObjs(w) && InRange(g, psi)
    ensures GenAt(w, psi[s]) == if GenAt(v, s) == from then dest else GenAt(v, s)
  {
    hide SameShape;
    assert InPlace(g, v, w, pins, from, dest, {}, s, psi[s]);
    ShapeFit(g, v, w, s, psi[s]);
  }

  /** An edge of the graph of `gen` is one of the graph of what that has become. */
  lemma EdgeLeadsOn(g: Geometry, v: View, w: View, psi: map<nat, nat>, pins: set<nat>, from: Generation,
                    dest: Generation, straight: bool, gen: Generation, s: nat, t: nat)
    requires GeoOk(g) && HeapOk(g, v) && PassResult(g, v, w, psi, psi.Keys, pins, from, dest)
    requires FieldsTracked(g, v, w, psi, psi.Keys, pins, from, dest, straight)
    requires gen != from || from == dest || straight
    requires s in psi && s / PAGE_CELLS < |v.descs| && GenAt(v, s) == gen && Edge(g, v, gen, s, t) && t in psi
    ensures Edge(g, w, if gen == from then dest else gen, psi[s], psi[t])
  {
    hide SameShape, SizeOf, IsPtrOff, PassResult, FieldsTracked, Follows, InPlace, HeapOk;
    var gen' := if gen == from then dest else gen;
    var i: nat :| EdgeAt(g, v, gen, s, i, t);
    ResultPlace(g, v, w, psi, pins, from, dest, s);
    ShapeFit(g, v, w, s, psi[s]);
    OffsetFits(g, v, s, i);
    FieldLeadsOn(g, v, w, psi, pins, from, dest, straight, gen, s, i);
    FollowsIn(g, w, gen', Field(w, psi[s], i));
    assert EdgeAt(g, w, gen', psi[s], i, psi[t]);
  }

  lemma OffsetFits(g: Geometry, v: View, s: nat, i: nat)
    requires HeapOk(g, v) && IsObj(v, s) && IsPtrOff(g, v, s, i)
    ensures s < |v.starts| == |v.cells| && i < SizeOf(g, v, s)
  {
    assert ObjOk(g, v, s);
  }

  /** What keeps an object of `gen` alive apart from the cards keeps alive what it has become. */
  lemma SeedLeadsOn(g: Geometry, v: View, w: View, psi: map<nat, nat>, pins: set<nat>, from: Generation,
                    dest: Generation, straight: bool, gen: Generation, roots0: seq<u64>, roots: seq<u64>, s: nat)
    requires GeoOk(g) && HeapOk(g, v) && PassResult(g, v, w, psi, psi.Keys, pins, from, dest)
    requires LedOn(g, v, w, psi, psi.Keys, pins, from, dest, straight, roots0, roots)
    requires forall x | x in pins :: x in psi
    requires s in EvacSeeds(g, v, gen, roots0, {}, pins) && s in psi
    ensures FromRoots(g, w, if gen == from then dest else gen, roots, pins, psi[s])
  {
    hide SameShape, PassResult, FieldsTracked, Follows, InPlace, HeapOk, Tracked, SeedCells, PinsIn, CrossPinPtrs,
      Reachable;
    ResultShapes(g, v, w, psi, psi.Keys, pins, from, dest);
    var gen' := if gen == from then dest else gen;
    var seeds := EvacSeeds(g, w, gen', roots, {}, pins);
    NoWords(g, v, gen);
    if s in SeedCells(g, v, gen, WordsOf(roots0)) {
      RootLeadsOn(g, v, w, psi, pins, from, dest, gen, roots0, roots, s);
      ReachSeed(g, w, gen', seeds, psi[s]);
    } else if s in PinsIn(v, pins, gen) {
      PinStays(g, v, w, psi, pins, from, dest, gen, s);
      ReachSeed(g, w, gen', seeds, psi[s]);
    } else {
      PinLeadsOn(g, v, w, psi, pins, from, dest, straight, gen, roots, s);
    }
  }

  lemma NoWords(g: Geometry, v: View, gen: Generation)
    ensures SeedCells(g, v, gen, WordsAt(v, {})) == {}
  {
    assert WordsAt(v, {}) == {};
  }

  lemma RootLeadsOn(g: Geometry, v: View, w: View, psi: map<nat, nat>, pins: set<nat>, from: Generation,
                    dest: Generation, gen: Generation, roots0: seq<u64>, roots: seq<u64>, s: nat)
    requires GeoOk(g) && PassResult(g, v, w, psi, psi.Keys, pins, from, dest) && InRange(g, psi)
    requires RootsTracked(g, psi, roots0, roots) && s in SeedCells(g, v, gen, WordsOf(roots0)) && s in psi
    ensures psi[s] in SeedCells(g, w, if gen == from then dest else gen, WordsOf(roots))
  {
    hide PassResult, Tracked, Follows;
    SeedWord(g, v, gen, WordsOf(roots0), s);
    var word :| word in WordsOf(roots0) && Follows(g, v, gen, word) && InHeap(g, word) && CellOf(g, word) == s;
    var i :| 0 <= i < |roots0| && roots0[i] == word;
    assert Tracked(g, psi, roots0[i], roots[i]);
    LeadsOn(g, v, w, psi, pins, from, dest, gen, word, roots[i]);
    assert roots[i] in WordsOf(roots);
  }

  lemma PinStays(g: Geometry, v: View, w: View, psi: map<nat, nat>, pins: set<nat>, from: Generation, dest: Generation,
                 gen: Generation, s: nat)
    requires PassResult(g, v, w, psi, psi.Keys, pins, from, dest) && s in PinsIn(v, pins, gen) && s in psi
    ensures psi[s] == s && s in PinsIn(w, pins, if gen == from then dest else gen)
  {
    hide PassResult, SameShape;
    ResultPlace(g, v, w, psi, pins, from, dest, s);
  }

  /** What a pinned object of another generation points to. */
  lemma PinLeadsOn(g: Geometry, v: View, w: View, psi: map<nat, nat>, pins: set<nat>, from: Generation,
                   dest: Generation, straight: bool, gen: Generation, roots: seq<u64>, t: nat)
    requires GeoOk(g) && HeapOk(g, v) && PassResult(g, v, w, psi, psi.Keys, pins, from, dest) && InRange(g, psi)
    requires FieldsTracked(g, v, w, psi, psi.Keys, pins, from, dest, straight)
    requires forall x | x in pins :: x in psi
    requires t in SeedCells(g, v, gen, WordsAt(v, CrossPinPtrs(g, v, pins, gen))) && t in psi
    ensures FromRoots(g, w, if gen == from then dest else gen, roots, pins, psi[t])
  {
    hide SameShape, PassResult, FieldsTracked, Follows, HeapOk, PtrCells, Reachable, SizeOf, IsPtrOff, EvacSeeds;
    ResultShapes(g, v, w, psi, psi.Keys, pins, from, dest);
    var cells := CrossPinPtrs(g, v, pins, gen);
    SeedWord(g, v, gen, WordsAt(v, cells), t);
    var word :| word in WordsAt(v, cells) && Follows(g, v, gen, word) && InHeap(g, word) && CellOf(g, word) == t;
    var c :| c in cells && c < |v.cells| && v.cells[c] == word;
    var s :| s in pins && IsObj(v, s) && GenAt(v, s) != gen && c in PtrCells(g, v, s);
    PinnedLeadsOn(g, v, w, psi, pins, from, dest, straight, gen, roots, t, s, c);
  }

  lemma PinnedLeadsOn(g: Geometry, v: View, w: View, psi: map<nat, nat>, pins: set<nat>, from: Generation,
                      dest: Generation, straight: bool, gen: Generation, roots: seq<u64>, t: nat, s: nat, c: nat)
    requires GeoOk(g) && HeapOk(g, v) && PassResult(g, v, w, psi, psi.Keys, pins, from, dest) && InRange(g, psi)
    requires FieldsTracked(g, v, w, psi, psi.Keys, pins, from, dest, straight) && t in psi
    requires s in pins && s in psi && IsObj(v, s) && GenAt(v, s) != gen && Shaped(g, v) && c in PtrCells(g, v, s)
    requires c < |v.cells| && Follows(g, v, gen, v.cells[c]) && InHeap(g, v.cells[c]) && CellOf(g, v.cells[c]) == t
    ensures FromRoots(g, w, if gen == from then dest else gen, roots, pins, psi[t])
  {
    hide SameShape, PassResult, FieldsTracked, Follows, HeapOk, PtrCells, Reachable, SizeOf, IsPtrOff, CrossPinPtrs,
      SeedCells, WordsAt, WordsOf, Edge;
    var gen' := if gen == from then dest else gen;
    ResultPlace(g, v, w, psi, pins, from, dest, s);
    PtrCellPlace(g, v, s, c);
    var i := c - s;
    OffsetFits(g, v, s, i);
    FieldLeadsOn(g, v, w, psi, pins, from, dest, straight, gen, s, i);
    var seeds := EvacSeeds(g, w, gen', roots, {}, pins);
    if GenAt(w, s) == gen' {
      assert s in PinsIn(w, pins, gen');
      ReachSeed(g, w, gen', seeds, s);
      FollowsIn(g, w, gen', Field(w, s, i));
      EdgeIs(g, w, gen', s, i, psi[t]);
      ReachStep(g, w, gen', seeds, s, psi[t]);
    } else {
      PtrCellIn(g, w, s, i);
      CrossSeed(g, w, pins, gen', s, c);
      ReachSeed(g, w, gen', seeds, psi[t]);
    }
  }

  lemma EdgeIs(g: Geometry, v: View, gen: Generation, s: nat, i: nat, t: nat)
    requires s < |v.starts| && s + i < |v.cells| && IsPtrOff(g, v, s, i) && Follows(g, v, gen, v.cells[s + i])
    requires InHeap(g, v.cells[s + i]) && CellOf(g, v.cells[s + i]) == t
    ensures Edge(g, v, gen, s, t)
  {
    assert EdgeAt(g, v, gen, s, i, t);
  }

  lemma PtrCellPlace(g: Geometry, v: View, s: nat, c: nat)
    requires Shaped(g, v) && IsObj(v, s) && c in PtrCells(g, v, s)
    ensures s <= c && IsPtrOff(g, v, s, c - s)
  {
  }

  lemma CrossSeed(g: Geometry, w: View, pins: set<nat>, gen: Generation, s: nat, c: nat)
    requires Shaped(g, w) && s in pins && IsObj(w, s) && GenAt(w, s) != gen && c in PtrCells(g, w, s)
    requires c < |w.cells| && Follows(g, w, gen, w.cells[c])
    ensures CellOf(g, w.cells[c]) in SeedCells(g, w, gen, WordsAt(w, CrossPinPtrs(g, w, pins, gen)))
  {
    hide PtrCells, Follows;
    assert c in CrossPinPtrs(g, w, pins, gen);
    assert w.cells[c] in WordsAt(w, CrossPinPtrs(g, w, pins, gen));
  }

  /** A pass carries on what the roots and the pins reach within a generation: of the source within
      one generation or as long as the promotion is straight, of any other always. */
  lemma PassCarriesReach(g: Geometry, v: View, w: View, cards: seq<bool>, scan: Option<seq<PageDesc>>,
                         psi: map<nat, nat>, pins: set<nat>, from: Generation, dest: Generation, straight: bool,
                         gen: Generation, roots0: seq<u64>, roots: seq<u64>)
    requires GeoOk(g) && HeapOk(g, v) && PassResult(g, v, w, psi, psi.Keys, pins, from, dest)
    requires Shaped(g, v) && Shaped(g, w) && psi.Keys == ToKeep(g, v, cards, roots0, scan, from, pins)
    requires LedOn(g, v, w, psi, psi.Keys, pins, from, dest, straight, roots0, roots)
    requires gen != from || from == dest || straight
    requires forall x | x in pins :: x in psi
    ensures CarriesReach(g, v, w, psi, gen, if gen == from then dest else gen, roots0, roots, pins)
  {
    hide PassResult, LedOn, HeapOk, EvacSeeds, Edge, ToKeep;
    PassKeepsReach(g, v, cards, roots0, scan, from, pins, psi, gen);
    forall c: nat | FromRoots(g, v, gen, roots0, pins, c)
      ensures c in psi && FromRoots(g, w, if gen == from then dest else gen, roots, pins, psi[c])
    {
      var path :| IsPath(g, v, gen, EvacSeeds(g, v, gen, roots0, {}, pins), path) && path[|path| - 1] == c;
      PathLeadsOn(g, v, w, psi, pins, from, dest, straight, gen, roots0, roots, path);
    }
  }

  lemma LedOnParts(g: Geometry, v: View, w: View, psi: map<nat, nat>, pins: set<nat>, from: Generation,
                        dest: Generation, straight: bool, roots0: seq<u64>, roots: seq<u64>)
    requires LedOn(g, v, w, psi, psi.Keys, pins, from, dest, straight, roots0, roots)
    ensures GeoOk(g) && InRange(g, psi) && FieldsTracked(g, v, w, psi, psi.Keys, pins, from, dest, straight)
    ensures RootsTracked(g, psi, roots0, roots)
  {
    hide FieldsTracked, RootsTracked;
  }

  lemma {:induction false} PathLeadsOn(g: Geometry, v: View, w: View, psi: map<nat, nat>, pins: set<nat>,
                                       from: Generation, dest: Generation, straight: bool, gen: Generation,
                                       roots0: seq<u64>, roots: seq<u64>, path: seq<nat>)
    requires GeoOk(g) && HeapOk(g, v) && PassResult(g, v, w, psi, psi.Keys, pins, from, dest)
    requires Shaped(g, v) && Shaped(g, w) && KeepsReach(g, v, psi, gen, roots0, pins)
    requires LedOn(g, v, w, psi, psi.Keys, pins, from, dest, straight, roots0, roots)
    requires gen != from || from == dest || straight
    requires (forall x | x in pins :: x in psi) && IsPath(g, v, gen, EvacSeeds(g, v, gen, roots0, {}, pins), path)
    ensures var c := path[|path| - 1];
      && FromRoots(g, v, gen, roots0, pins, c) && c in psi
      && FromRoots(g, w, if gen == from then dest else gen, roots, pins, psi[c])
    decreases |path|
  {
    hide PassResult, LedOn, HeapOk, EvacSeeds, Edge, FieldsTracked, RootsTracked, Reachable, AllObjs;
    var gen', n := if gen == from then dest else gen, |path| - 1;
    var seeds, seeds' := EvacSeeds(g, v, gen, roots0, {}, pins), EvacSeeds(g, w, gen', roots, {}, pins);
    if n == 0 {
      ReachSeed(g, v, gen, seeds, path[0]);
      SeedLeadsOn(g, v, w, psi, pins, from, dest, straight, gen, roots0, roots, path[0]);
    } else {
      var s, t := path[n - 1], path[n];
      PathLeadsOn(g, v, w, psi, pins, from, dest, straight, gen, roots0, roots, path[..n]);
      LedOnParts(g, v, w, psi, pins, from, dest, straight, roots0, roots);
      ReachedObjs(g, v, gen, roots0, {}, pins, s);
      ReachStep(g, v, gen, seeds, s, t);
      EdgeLeadsOn(g, v, w, psi, pins, from, dest, straight, gen, s, t);
      ReachStep(g, w, gen', seeds', psi[s], psi[t]);
    }
  }
  /** No root that points to an object loses it in a pass. */
  lemma PassHoldsRoots(g: Geometry, v: View, cards: seq<bool>, roots0: seq<u64>, roots: seq<u64>,
                       scan: Option<seq<PageDesc>>, from: Generation, pins: set<nat>, psi: map<nat, nat>)
    requires GeoOk(g) && Shaped(g, v) && InRange(g, psi) && RootsTracked(g, psi, roots0, roots)
    requires psi.Keys == ToKeep(g, v, cards, roots0, scan, from, pins)
    ensures RootsHeld(g, v, psi, roots0, roots)
  {
    hide EvacSeeds, Reachable, CardRoots, Tracked, WordImage;
    var visited := CardRoots(g, v, cards, scan, from);
    forall i | 0 <= i < |roots0| ensures RootHeld(g, v, psi, roots0[i], roots[i]) {
      TrackedFollows(g, psi, roots0[i], roots[i]);
      if Aims(g, v, roots0[i]) {
        RootIsSeed(g, v, roots0, i, visited, pins);
        var c := CellOf(g, roots0[i]);
        ReachSeed(g, v, GenAt(v, c), EvacSeeds(g, v, GenAt(v, c), roots0, visited, pins), c);
        assert c in psi.Keys;
      }
    }
  }

  lemma RootIsSeed(g: Geometry, v: View, roots: seq<u64>, i: nat, visited: set<nat>, pins: set<nat>)
    requires Shaped(g, v) && i < |roots| && Aims(g, v, roots[i])
    ensures var c := CellOf(g, roots[i]);
      c in AllObjs(v) && c / PAGE_CELLS < |v.descs| && c in EvacSeeds(g, v, GenAt(v, c), roots, visited, pins)
  {
    var gen := GenAt(v, CellOf(g, roots[i]));
    assert roots[i] in WordsOf(roots) && Follows(g, v, gen, roots[i]);
    assert CellOf(g, roots[i]) in SeedCells(g, v, gen, WordsOf(roots));
    hide SeedCells, WordsOf;
  }

  // -- Passes in sequence ---------------------------------------------------

  /** The generations nothing of which has been lost that the roots and the pins reached, those all of which they
      reach still, and those that have stayed where they are; `watched` if all pointers between generations
      lay on dirty cards at the start. */
  datatype Reach = Reach(kept: set<Generation>, carried: set<Generation>, still: set<Generation>, watched: bool)

  const YOUNG_AND_OLD: set<Generation> := {G0, G1, Tenured}

  function AllReach(watched: bool): Reach { Reach(YOUNG_AND_OLD, YOUNG_AND_OLD, YOUNG_AND_OLD, watched) }

  ghost predicate ReachHeld(g: Geometry, v: View, w: View, phi: map<nat, nat>, to: Generation -> Generation,
                            roots0: seq<u64>, roots: seq<u64>, pins: set<nat>, reach: Reach)
    requires Shaped(g, v) && Shaped(g, w)
  {
    && (forall gen | gen in reach.kept :: KeepsReach(g, v, phi, gen, roots0, pins))
    && (forall gen | gen in reach.carried :: CarriesReach(g, v, w, phi, gen, to(gen), roots0, roots, pins))
  }

  /** After one more pass: of what lies in its source now, what the roots and the pins still reach is kept. */
  function ReachAfter(reach: Reach, to: Generation -> Generation, from: Generation, dest: Generation,
                      straight: bool): Reach {
    Reach(reach.carried + (set gen | gen in reach.kept && to(gen) != from),
          (set gen | gen in reach.carried && (to(gen) != from || from == dest || straight)),
          reach.still - {from}, reach.watched)
  }

  lemma ReachStart(g: Geometry, v: View, roots: seq<u64>, pins: set<nat>, watched: bool)
    requires Shaped(g, v)
    ensures ReachHeld(g, v, v, Staying(AllObjs(v)), gen => gen, roots, roots, pins, AllReach(watched))
  {
    hide EvacSeeds, Reachable;
    forall gen: Generation, c: nat | FromRoots(g, v, gen, roots, pins, c) ensures c in AllObjs(v) {
      ReachedObjs(g, v, gen, roots, {}, pins, c);
    }
  }

  lemma ReachNext(g: Geometry, v: View, u: View, w: View, cards: seq<bool>, scan: Option<seq<PageDesc>>,
                  phi: map<nat, nat>, psi: map<nat, nat>, pins: set<nat>, from: Generation, dest: Generation,
                  straight: bool, to0: Generation -> Generation, to: Generation -> Generation, roots0: seq<u64>,
                  roots1: seq<u64>, roots2: seq<u64>, reach: Reach)
    requires GeoOk(g) && HeapOk(g, u) && PassResult(g, u, w, psi, psi.Keys, pins, from, dest)
    requires Shaped(g, v) && Shaped(g, u) && Shaped(g, w)
    requires psi.Keys == ToKeep(g, u, cards, roots1, scan, from, pins)
    requires LedOn(g, u, w, psi, psi.Keys, pins, from, dest, straight, roots1, roots2)
    requires forall x | x in pins :: x in psi
    requires forall gen: Generation :: to(gen) == PassGen(from, dest)(to0(gen))
    requires GensBy(v, u, phi, to0) && phi.Values == AllObjs(u)
    requires ReachHeld(g, v, u, phi, to0, roots0, roots1, pins, reach)
    ensures ReachHeld(g, v, w, Compose(phi, psi), to, roots0, roots2, pins,
                ReachAfter(reach, to0, from, dest, straight))
  {
    hide PassResult, LedOn, HeapOk, FromRoots, ToKeep, GensBy, KeepsReach, CarriesReach;
    forall gen | gen in reach.kept && to0(gen) != from
      ensures KeepsReach(g, v, Compose(phi, psi), gen, roots0, pins) {
      KeptOutside(g, v, u, cards, scan, phi, psi, pins, from, to0, gen, roots0, roots1);
    }
    forall gen | gen in reach.carried ensures KeepsReach(g, v, Compose(phi, psi), gen, roots0, pins) {
      PassKeepsReach(g, u, cards, roots1, scan, from, pins, psi, to0(gen));
      CarriedKept(g, v, u, phi, psi, gen, to0(gen), roots0, roots1, pins);
    }
    forall gen | gen in reach.carried && (to0(gen) != from || from == dest || straight)
      ensures CarriesReach(g, v, w, Compose(phi, psi), gen, to(gen), roots0, roots2, pins) {
      PassCarriesReach(g, u, w, cards, scan, psi, pins, from, dest, straight, to0(gen), roots1, roots2);
      CarriedOn(g, v, u, w, phi, psi, gen, to0(gen), to(gen), roots0, roots1, roots2, pins);
    }
  }

  lemma CarriedKept(g: Geometry, v: View, u: View, phi: map<nat, nat>, psi: map<nat, nat>, a: Generation,
                    b: Generation, roots0: seq<u64>, roots1: seq<u64>, pins: set<nat>)
    requires Shaped(g, v) && Shaped(g, u) && CarriesReach(g, v, u, phi, a, b, roots0, roots1, pins)
    requires KeepsReach(g, u, psi, b, roots1, pins)
    ensures KeepsReach(g, v, Compose(phi, psi), a, roots0, pins)
  {
    hide FromRoots;
  }

  lemma CarriedOn(g: Geometry, v: View, u: View, w: View, phi: map<nat, nat>, psi: map<nat, nat>, a: Generation,
                  b: Generation, c: Generation, roots0: seq<u64>, roots1: seq<u64>, roots2: seq<u64>, pins: set<nat>)
    requires Shaped(g, v) && Shaped(g, u) && Shaped(g, w) && CarriesReach(g, v, u, phi, a, b, roots0, roots1, pins)
    requires CarriesReach(g, u, w, psi, b, c, roots1, roots2, pins)
    ensures CarriesReach(g, v, w, Compose(phi, psi), a, c, roots0, roots2, pins)
  {
    hide FromRoots;
  }

  /** A pass keeps every object outside its source. */
  lemma KeptOutside(g: Geometry, v: View, u: View, cards: seq<bool>, scan: Option<seq<PageDesc>>, phi: map<nat, nat>,
                    psi: map<nat, nat>, pins: set<nat>, from: Generation, to0: Generation -> Generation,
                    gen: Generation, roots0: seq<u64>, roots1: seq<u64>)
    requires Shaped(g, v) && Shaped(g, u) && psi.Keys == ToKeep(g, u, cards, roots1, scan, from, pins)
    requires GensBy(v, u, phi, to0) && phi.Values == AllObjs(u) && to0(gen) != from
    requires KeepsReach(g, v, phi, gen, roots0, pins)
    ensures KeepsReach(g, v, Compose(phi, psi), gen, roots0, pins)
  {
    hide EvacSeeds, Reachable;
    forall c: nat | FromRoots(g, v, gen, roots0, pins, c) ensures c in Compose(phi, psi) {
      ReachedObjs(g, v, gen, roots0, {}, pins, c);
      assert phi[c] in AllObjs(u) && phi[c] in psi.Keys;
    }
  }

  /** Pin bytes are not part of it. */
  lemma FromRootsSansPins(g: Geometry, u: View, w: View, gen: Generation, roots: seq<u64>, pins: set<nat>, c: nat)
    requires PinBytesOnly(u, w) && Shaped(g, u) && Shaped(g, w) && FromRoots(g, u, gen, roots, pins, c)
    ensures FromRoots(g, w, gen, roots, pins, c)
  {
    SeedsSansPins(g, u, w, gen, roots, pins);
    hide EvacSeeds, Reachable;
    ReachSansPins(g, u, w, gen, EvacSeeds(g, u, gen, roots, {}, pins), c);
  }

  lemma SeedsSansPins(g: Geometry, u: View, w: View, gen: Generation, roots: seq<u64>, pins: set<nat>)
    requires PinBytesOnly(u, w) && Shaped(g, u) && Shaped(g, w)
    ensures EvacSeeds(g, w, gen, roots, {}, pins) == EvacSeeds(g, u, gen, roots, {}, pins)
  {
    SameCross(g, u, w, gen, pins);
    forall words ensures SeedCells(g, w, gen, words) == SeedCells(g, u, gen, words) {
      SameSeedCells(g, u, w, gen, words);
    }
    hide CrossPinPtrs, SeedCells;
    assert PinsIn(w, pins, gen) == PinsIn(u, pins, gen);
    assert forall cells :: WordsAt(w, cells) == WordsAt(u, cells);
  }

  lemma ReachSansPinsAfter(g: Geometry, v: View, u: View, w: View, phi: map<nat, nat>, to: Generation -> Generation,
                           roots0: seq<u64>, roots: seq<u64>, pins: set<nat>, reach: Reach)
    requires PinBytesOnly(u, w) && Shaped(g, v) && Shaped(g, u) && Shaped(g, w)
    requires ReachHeld(g, v, u, phi, to, roots0, roots, pins, reach)
    ensures ReachHeld(g, v, w, phi, to, roots0, roots, pins, reach)
  {
    hide FromRoots;
    forall gen | gen in reach.carried ensures CarriesReach(g, v, w, phi, gen, to(gen), roots0, roots, pins) {
      assert CarriesReach(g, v, u, phi, gen, to(gen), roots0, roots, pins);
      forall c: nat | FromRoots(g, v, gen, roots0, pins, c)
        ensures c in phi && FromRoots(g, w, to(gen), roots, pins, phi[c]) {
        FromRootsSansPins(g, u, w, to(gen), roots, pins, phi[c]);
      }
    }
  }

  lemma ReachSansPinsBefore(g: Geometry, v: View, u: View, w: View, phi: map<nat, nat>, to: Generation -> Generation,
                            roots0: seq<u64>, roots: seq<u64>, pins: set<nat>, reach: Reach)
    requires PinBytesOnly(v, u) && Shaped(g, v) && Shaped(g, u) && Shaped(g, w)
    requires ReachHeld(g, u, w, phi, to, roots0, roots, pins, reach)
    ensures ReachHeld(g, v, w, phi, to, roots0, roots, pins, reach)
  {
    hide FromRoots;
    forall gen: Generation, c: nat | FromRoots(g, v, gen, roots0, pins, c)
      ensures FromRoots(g, u, gen, roots0, pins, c) { FromRootsSansPins(g, v, u, gen, roots0, pins, c); }
    assert forall gen | gen in reach.kept :: KeepsReach(g, u, phi, gen, roots0, pins);
    forall gen | gen in reach.carried ensures CarriesReach(g, v, w, phi, gen, to(gen), roots0, roots, pins) {
      assert CarriesReach(g, u, w, phi, gen, to(gen), roots0, roots, pins);
    }
  }
}
