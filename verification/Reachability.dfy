/** The object graph as the program sees it: what its roots reach. */
module Reachability {
  import opened Bits
  import opened Objects
  import opened Moves
  import opened Copying
  import opened Graphs

  /** Field `i` of the object at `s` points to `t`. */
  predicate PointsAt(g: Geometry, v: View, s: nat, i: nat, t: nat) {
    && s < |v.starts| == |v.cells| && i < SizeOf(g, v, s) && IsPtrOff(g, v, s, i) && s + i < |v.cells|
    && InHeap(g, Field(v, s, i)) && CellOf(g, Field(v, s, i)) == t
  }

  ghost predicate Points(g: Geometry, v: View, s: nat, t: nat) {
    exists i: nat :: PointsAt(g, v, s, i, t)
  }

  function RootCells(g: Geometry, roots: seq<u64>): set<nat> {
    set i | 0 <= i < |roots| && InHeap(g, roots[i]) :: CellOf(g, roots[i])
  }

  ghost predicate Chain(g: Geometry, v: View, roots: seq<u64>, path: seq<nat>) {
    && |path| >= 1 && path[0] in RootCells(g, roots)
    && forall k | 0 <= k < |path| - 1 :: Points(g, v, path[k], path[k + 1])
  }

  /** The roots reach `c`. */
  ghost predicate ReachedFrom(g: Geometry, v: View, roots: seq<u64>, c: nat) {
    exists path: seq<nat> :: Chain(g, v, roots, path) && path[|path| - 1] == c
  }

  lemma ReachedRoot(g: Geometry, v: View, roots: seq<u64>, c: nat)
    requires c in RootCells(g, roots)
    ensures ReachedFrom(g, v, roots, c)
  {
    assert Chain(g, v, roots, [c]);
  }

  lemma ReachedNext(g: Geometry, v: View, roots: seq<u64>, s: nat, t: nat)
    requires ReachedFrom(g, v, roots, s) && Points(g, v, s, t)
    ensures ReachedFrom(g, v, roots, t)
  {
    var path :| Chain(g, v, roots, path) && path[|path| - 1] == s;
    var longer := path + [t];
    forall k | 0 <= k < |longer| - 1 ensures Points(g, v, longer[k], longer[k + 1]) {
      if k < |path| - 1 { assert longer[k] == path[k] && longer[k + 1] == path[k + 1]; }
    }
    assert Chain(g, v, roots, longer);
  }

  lemma ChainFront(g: Geometry, v: View, roots: seq<u64>, path: seq<nat>)
    requires Chain(g, v, roots, path) && |path| > 1
    ensures Chain(g, v, roots, path[..|path| - 1]) && Points(g, v, path[|path| - 2], path[|path| - 1])
  {
    var front := path[..|path| - 1];
    forall k | 0 <= k < |front| - 1 ensures Points(g, v, front[k], front[k + 1]) {
      assert Points(g, v, path[k], path[k + 1]);
    }
    assert Points(g, v, path[|path| - 2], path[|path| - 2 + 1]);
  }

  // -- Under an isomorphism -------------------------------------------------

  lemma PointsForward(g: Geometry, v: View, w: View, phi: map<nat, nat>, s: nat, t: nat)
    requires GeoOk(g) && Iso(g, v, w, phi) && s in phi && Points(g, v, s, t)
    ensures t in phi && Points(g, w, phi[s], phi[t])
  {
    hide LayoutAt;
    var i: nat :| PointsAt(g, v, s, i, t);
    assert ObjImage(g, v, w, phi, s);
    ShapeOffsets(g, v, w, s, phi[s], i);
    assert FieldImage(g, phi, true, Field(v, s, i), Field(w, phi[s], i));
    AimLaw(g, Field(v, s, i), phi[t]);
    assert PointsAt(g, w, phi[s], i, phi[t]);
  }

  lemma PointsBackward(g: Geometry, v: View, w: View, phi: map<nat, nat>, s: nat, x: nat)
    requires GeoOk(g) && Iso(g, v, w, phi) && s in phi && Points(g, w, phi[s], x)
    ensures exists u :: u in phi && phi[u] == x && Points(g, v, s, u)
  {
    hide LayoutAt;
    var i: nat :| PointsAt(g, w, phi[s], i, x);
    assert ObjImage(g, v, w, phi, s);
    ShapeOffsets(g, v, w, s, phi[s], i);
    var word := Field(v, s, i);
    assert FieldImage(g, phi, true, word, Field(w, phi[s], i));
    ImageTarget(g, phi, word, Field(w, phi[s], i));
    var u := CellOf(g, word);
    assert PointsAt(g, v, s, i, u);
  }

  lemma RootForward(g: Geometry, phi: map<nat, nat>, r0: seq<u64>, r1: seq<u64>, c: nat)
    requires GeoOk(g) && InRange(g, phi) && RootsImage(g, phi, r0, r1) && c in RootCells(g, r0)
    ensures c in phi && phi[c] in RootCells(g, r1)
  {
    var i :| 0 <= i < |r0| && InHeap(g, r0[i]) && CellOf(g, r0[i]) == c;
    assert WordImage(g, phi, r0[i], r1[i]);
    AimLaw(g, r0[i], phi[c]);
  }

  lemma RootBackward(g: Geometry, phi: map<nat, nat>, r0: seq<u64>, r1: seq<u64>, x: nat)
    requires GeoOk(g) && InRange(g, phi) && RootsImage(g, phi, r0, r1) && x in RootCells(g, r1)
    ensures exists c :: c in phi && phi[c] == x && c in RootCells(g, r0)
  {
    var i :| 0 <= i < |r1| && InHeap(g, r1[i]) && CellOf(g, r1[i]) == x;
    assert WordImage(g, phi, r0[i], r1[i]);
    ImageTarget(g, phi, r0[i], r1[i]);
    var c := CellOf(g, r0[i]);
  }

  /** What the roots reached before is kept, and its image is reached after. */
  lemma {:induction false} ReachForward(g: Geometry, v: View, w: View, phi: map<nat, nat>, r0: seq<u64>, r1: seq<u64>,
                                        path: seq<nat>)
    requires GeoOk(g) && Iso(g, v, w, phi) && RootsImage(g, phi, r0, r1) && Chain(g, v, r0, path)
    ensures path[|path| - 1] in phi && ReachedFrom(g, w, r1, phi[path[|path| - 1]])
    decreases |path|
  {
    hide Iso, RootsImage, Points, Chain;
    IsoRange(g, v, w, phi);
    ChainRoot(g, v, r0, path);
    if |path| == 1 {
      RootForward(g, phi, r0, r1, path[0]);
      ReachedRoot(g, w, r1, phi[path[0]]);
    } else {
      var n := |path| - 1;
      ChainFront(g, v, r0, path);
      ReachForward(g, v, w, phi, r0, r1, path[..n]);
      PointsForward(g, v, w, phi, path[n - 1], path[n]);
      ReachedNext(g, w, r1, phi[path[n - 1]], phi[path[n]]);
    }
  }

  lemma ChainRoot(g: Geometry, v: View, roots: seq<u64>, path: seq<nat>)
    requires Chain(g, v, roots, path)
    ensures |path| >= 1 && path[0] in RootCells(g, roots)
  {
  }

  lemma IsoRange(g: Geometry, v: View, w: View, phi: map<nat, nat>)
    requires GeoOk(g) && Iso(g, v, w, phi)
    ensures InRange(g, phi) && Injective(phi)
  {
  }

  /** What the roots reach after is the image of something they reached before. */
  lemma {:induction false} ReachBackward(g: Geometry, v: View, w: View, phi: map<nat, nat>, r0: seq<u64>, r1: seq<u64>,
                                         path: seq<nat>)
    requires GeoOk(g) && Iso(g, v, w, phi) && RootsImage(g, phi, r0, r1) && Chain(g, w, r1, path)
    ensures exists s :: s in phi && phi[s] == path[|path| - 1] && ReachedFrom(g, v, r0, s)
    decreases |path|
  {
    hide Iso, RootsImage, Points, Chain;
    IsoRange(g, v, w, phi);
    ChainRoot(g, w, r1, path);
    if |path| == 1 {
      RootBackward(g, phi, r0, r1, path[0]);
      var c :| c in phi && phi[c] == path[0] && c in RootCells(g, r0);
      ReachedRoot(g, v, r0, c);
    } else {
      var n := |path| - 1;
      ChainFront(g, w, r1, path);
      ReachBackward(g, v, w, phi, r0, r1, path[..n]);
      var s :| s in phi && phi[s] == path[n - 1] && ReachedFrom(g, v, r0, s);
      PointsBackward(g, v, w, phi, s, path[n]);
      var u :| u in phi && phi[u] == path[n] && Points(g, v, s, u);
      ReachedNext(g, v, r0, s, u);
    }
  }

  /** The reachable graph is isomorphic: `phi` maps what the roots reach before
      exactly onto what they reach after. */
  lemma ReachableIso(g: Geometry, v: View, w: View, phi: map<nat, nat>, r0: seq<u64>, r1: seq<u64>)
    requires GeoOk(g) && Iso(g, v, w, phi) && RootsImage(g, phi, r0, r1)
    ensures forall s | ReachedFrom(g, v, r0, s) :: s in phi && ReachedFrom(g, w, r1, phi[s])
    ensures forall x | ReachedFrom(g, w, r1, x) :: exists s :: s in phi && phi[s] == x && ReachedFrom(g, v, r0, s)
  {
    hide Iso, RootsImage, Points;
    forall s | ReachedFrom(g, v, r0, s) ensures s in phi && ReachedFrom(g, w, r1, phi[s]) {
      var path :| Chain(g, v, r0, path) && path[|path| - 1] == s;
      ReachForward(g, v, w, phi, r0, r1, path);
    }
    forall x | ReachedFrom(g, w, r1, x) ensures exists s :: s in phi && phi[s] == x && ReachedFrom(g, v, r0, s) {
      var path :| Chain(g, w, r1, path) && path[|path| - 1] == x;
      ReachBackward(g, v, w, phi, r0, r1, path);
    }
  }
}
