/** Roots and cards over whole runs: what a root points to lasts, and what an old object points to is not missed. */
module RootedRuns {
  import opened Bits
  import opened Options
  import opened Pages
  import opened Objects
  import opened Marking
  import opened Cards
  import opened Moves
  import opened Graphs
  import opened Following
  import opened RootReach
  import opened OldFields
  import opened PassResults
  import opened Remembered
  import opened Cycles
  import opened Runs
  import opened RunCollections
  import opened SystemRuns

  // -- Roots ----------------------------------------------------------------

  /** The object that root `r` points to at moment `i` it points to at moment `j` as well, wherever that is by then:
      with the layout it had and every word that is no pointer, through any allocations, stores and
      collections, with whatever pins, as long as no collection has run out of pages. */
  lemma {:induction false} RootLasts(g: Geometry, cmds: seq<Command>, moments: seq<Moment>, phis: seq<map<nat, nat>>,
                                     i: nat, j: nat, r: nat)
    requires IsRun(g, cmds, moments, phis) && i <= j < |moments| && GeoOk(g) && !moments[j].poisoned
    requires Shaped(g, moments[i].v) && HeapOk(g, moments[i].v)
    requires r < |moments[i].roots| && Aims(g, moments[i].v, moments[i].roots[r])
    ensures r < |moments[j].roots| && Aims(g, moments[j].v, moments[j].roots[r]) && Shaped(g, moments[j].v)
    ensures SameShape(g, moments[i].v, moments[j].v, CellOf(g, moments[i].roots[r]), CellOf(g, moments[j].roots[r]))
  {
    hide SameShape, StepOk, Aims, HeapOk;
    AimsObj(g, moments[i].v, moments[i].roots[r]);
    if i == j {
      SameView(g, moments[i].v);
    } else {
      if moments[j - 1].poisoned { PoisonLasts(g, cmds, moments, phis, j - 1, j); }
      RootLasts(g, cmds, moments, phis, i, j - 1, r);
      RootStep(g, cmds[j - 1], moments[j - 1], moments[j], phis[j - 1], r);
      AimsObj(g, moments[j - 1].v, moments[j - 1].roots[r]);
      AimsObj(g, moments[j].v, moments[j].roots[r]);
      ShapeOn(g, moments[i].v, moments[j - 1].v, moments[j].v, CellOf(g, moments[i].roots[r]),
        CellOf(g, moments[j - 1].roots[r]), CellOf(g, moments[j].roots[r]));
    }
  }

  lemma AimsObj(g: Geometry, v: View, w: u64)
    requires Aims(g, v, w)
    ensures InHeap(g, w) && IsObj(v, CellOf(g, w))
  {
  }

  lemma RootStep(g: Geometry, cmd: Command, a: Moment, b: Moment, phi: map<nat, nat>, r: nat)
    requires StepOk(g, a, cmd, b, phi) && !a.poisoned && !b.poisoned && GeoOk(g)
    requires r < |a.roots| && Aims(g, a.v, a.roots[r])
    ensures r < |b.roots| && Aims(g, b.v, b.roots[r]) && Shaped(g, b.v)
    ensures SameShape(g, a.v, b.v, CellOf(g, a.roots[r]), CellOf(g, b.roots[r]))
  {
    hide SameShape, AddsOne, StoresOne, PinsFollow, GensBy, ReachHeld, CardsTrue, Sound, Held, SureReach, GensKept;
    var c := CellOf(g, a.roots[r]);
    if cmd.Collects() {
      assert RootHeld(g, a.v, phi, a.roots[r], b.roots[r]);
      ImageAims(g, a.v, b.v, phi, a.roots[r], b.roots[r]);
    } else {
      ShapeFit(g, a.v, b.v, c, c);
      StartStays(g, a.v, b.v, c, c);
    }
  }

  lemma StartStays(g: Geometry, v: View, w: View, s: nat, t: nat)
    requires Shaped(g, v) && Shaped(g, w) && SameShape(g, v, w, s, t)
    ensures s < |v.starts| && t < |w.starts| && w.starts[t] == v.starts[s] && IsObj(w, t)
  {
  }

  lemma ImageAims(g: Geometry, v: View, w: View, phi: map<nat, nat>, word: u64, word': u64)
    requires GeoOk(g) && InRange(g, phi) && Shaped(g, v) && Shaped(g, w) && Aims(g, v, word)
    requires RootHeld(g, v, phi, word, word') && SameShape(g, v, w, CellOf(g, word), phi[CellOf(g, word)])
    ensures Aims(g, w, word') && CellOf(g, word') == phi[CellOf(g, word)]
  {
    var c := CellOf(g, word);
    StartStays(g, v, w, c, phi[c]);
    hide SameShape;
    ImageTarget(g, phi, word, word');
    AimLaw(g, word, phi[c]);
  }

  lemma ShapeOn(g: Geometry, u: View, v: View, w: View, a: nat, b: nat, c: nat)
    requires Shaped(g, u) && Shaped(g, v) && Shaped(g, w) && SameShape(g, u, v, a, b) && SameShape(g, v, w, b, c)
    ensures SameShape(g, u, w, a, c)
  {
  }

  // -- Cards ----------------------------------------------------------------

  /** At every moment of a run, whatever stores and allocations led there, the card scan of a pass from `from`
      finds the pointer that an object of another generation holds, on a page without gaps, to one in
      it, and the pass keeps that. */
  lemma OldPointersKept(g: Geometry, cmds: seq<Command>, moments: seq<Moment>, phis: seq<map<nat, nat>>, k: nat,
                        from: Generation, pins: set<nat>, s: nat, i: nat)
    requires IsRun(g, cmds, moments, phis) && 0 < k < |moments| && !moments[k].poisoned
    requires IsObj(moments[k].v, s) && GenAt(moments[k].v, s) != from && Shaped(g, moments[k].v)
    requires Tiled(g, moments[k].v, s / PAGE_CELLS)
    requires i < SizeOf(g, moments[k].v, s) && IsPtrOff(g, moments[k].v, s, i) && s + i < |moments[k].v.cells|
    requires Follows(g, moments[k].v, from, Field(moments[k].v, s, i))
    ensures InHeap(g, Field(moments[k].v, s, i))
    ensures CellOf(g, Field(moments[k].v, s, i)) in
              ToKeep(g, moments[k].v, moments[k].cards, moments[k].roots, Some(moments[k].v.descs), from, pins)
  {
    var m := moments[k];
    assert StepOk(g, moments[k - 1], cmds[k - 1], m, phis[k - 1]);
    hide IsRun, StepOk, Tiled, ToKeep, HeapOk, CardsCover, SizeOf, IsPtrOff;
    CardKeeps(g, m.v, m.cards, m.roots, m.v.descs, from, pins, s, i);
  }

  /** The generations that a collection moves nothing of. */
  function Unmoved(cmd: Command, n: Counters): set<Generation> {
    match cmd
    case Minor(_) => if PlanMinor(n.minors, n.promotes).promoteG1 then {Tenured} else {G1, Tenured}
    case Major(_) => {Tenured}
    case _ => {}
  }

  lemma UnmovedStill(cmd: Command, n: Counters, descs: seq<PageDesc>, pins: set<nat>)
    requires cmd.Collects()
    ensures SureReach(cmd, n, descs, pins).still == Unmoved(cmd, n) && SureReach(cmd, n, descs, pins).watched
  {
  }

  lemma CollectedOlds(g: Geometry, cmd: Command, a: Moment, b: Moment, phi: map<nat, nat>)
    requires StepOk(g, a, cmd, b, phi) && cmd.Collects() && !a.poisoned && !b.poisoned
    ensures Shaped(g, a.v) && Shaped(g, b.v) && GeoOk(g) && InRange(g, phi) && |b.roots| == |a.roots|
    ensures var pins := Held(g, a.v, a.pins, cmd);
      OldsHeld(g, a.v, b.v, phi, GoesTo(cmd, a.counters), a.roots, b.roots, pins,
               SureReach(cmd, a.counters, a.v.descs, pins))
    ensures forall x | x in phi :: SameShape(g, a.v, b.v, x, phi[x])
  {
    hide SameShape, PinsFollow, GensBy, ReachHeld, CardsTrue, Sound, Held, SureReach, OldsHeld, RootHeld, GoesTo, Ends,
      SlabsOk, CountAfter;
  }

  /** An object of such a generation stays where it is, reached or not; and if its page has no gaps, each field of it
      follows what it points to, which the collection keeps, with whatever pins. */
  lemma OldFieldFollows(g: Geometry, cmd: Command, a: Moment, b: Moment, phi: map<nat, nat>, s: nat, i: nat)
    requires StepOk(g, a, cmd, b, phi) && cmd.Collects() && !a.poisoned && !b.poisoned && Shaped(g, a.v)
    requires OfGens(a.v, Unmoved(cmd, a.counters), s)
    ensures s in phi && phi[s] == s && Shaped(g, b.v) && SameShape(g, a.v, b.v, s, s)
    ensures Scannable(g, a.v, s, i) && Aims(g, a.v, Field(a.v, s, i)) ==>
              && s + i < |b.v.cells|
              && var (w, w') := (Field(a.v, s, i), Field(b.v, s, i));
                 && CellOf(g, w) in phi && Aims(g, b.v, w') && CellOf(g, w') == phi[CellOf(g, w)]
                 && SameShape(g, a.v, b.v, CellOf(g, w), CellOf(g, w'))
  {
    hide SameShape, StepOk, ReachHeld, RootsHeld, Held, SureReach, Scannable, Aims, Unmoved, GoesTo, GeoOk, RootHeld,
      OldOne;
    var pins := Held(g, a.v, a.pins, cmd);
    CollectedOlds(g, cmd, a, b, phi);
    UnmovedStill(cmd, a.counters, a.v.descs, pins);
    if Scannable(g, a.v, s, i) {
      FieldFits(g, a.v, b.v, s, i);
      if Aims(g, a.v, Field(a.v, s, i)) {
        var w, w', fields := Field(a.v, s, i), Field(b.v, s, i), [(s, i)];
        OldAlone(g, a.v, Unmoved(cmd, a.counters), s, i);
        assert HeldWith(g, a.v, b.v, phi, GoesTo(cmd, a.counters), a.roots, b.roots, pins,
                        SureReach(cmd, a.counters, a.v.descs, pins), fields);
        LastHeld(g, a.v, b.v, phi, a.roots, b.roots, fields);
        AimsObj(g, a.v, w);
        HeldInPhi(g, a.v, phi, w, w');
        ImageAims(g, a.v, b.v, phi, w, w');
      }
    }
  }

  lemma FieldFits(g: Geometry, v: View, w: View, s: nat, i: nat)
    requires Shaped(g, v) && Shaped(g, w) && Scannable(g, v, s, i) && SameShape(g, v, w, s, s)
    ensures s + i < |v.cells| && s + i < |w.cells|
  {
    hide Tiled;
    ShapeOffsets(g, v, w, s, s, i);
  }

  lemma OldAlone(g: Geometry, v: View, gens: set<Generation>, s: nat, i: nat)
    requires Shaped(g, v) && Scannable(g, v, s, i) && OfGens(v, gens, s) && s + i < |v.cells|
    requires Aims(g, v, Field(v, s, i))
    ensures OldOnes(g, v, gens, [(s, i)]) && WordsIn(v, [(s, i)])[0] == Field(v, s, i)
  {
    hide Tiled;
  }

  lemma LastHeld(g: Geometry, v: View, w: View, phi: map<nat, nat>, roots0: seq<u64>, roots: seq<u64>,
                 fields: seq<(nat, nat)>)
    requires GeoOk(g) && InRange(g, phi) && |fields| == 1 && |roots| == |roots0|
    requires RootsHeld(g, v, phi, roots0 + WordsIn(v, fields), roots + WordsIn(w, fields))
    ensures RootHeld(g, v, phi, WordsIn(v, fields)[0], WordsIn(w, fields)[0])
  {
    hide RootHeld, WordsIn;
    assert (roots0 + WordsIn(v, fields))[|roots0|] == WordsIn(v, fields)[0];
    assert (roots + WordsIn(w, fields))[|roots0|] == WordsIn(w, fields)[0];
  }

  lemma HeldInPhi(g: Geometry, v: View, phi: map<nat, nat>, w: u64, w': u64)
    requires GeoOk(g) && InRange(g, phi) && RootHeld(g, v, phi, w, w') && Aims(g, v, w)
    ensures InHeap(g, w) && CellOf(g, w) in phi
  {
  }
}
