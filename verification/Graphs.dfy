/** Graph isomorphism between heaps under a relocation of objects. */
module Graphs {
  import opened Bits
  import opened Bitmaps
  import opened Objects
  import opened Moves
  import opened Copying

  /** `w'` is what the word `w` must become when objects move by `phi`: a pointer
      keeps its tag and follows its target, any other word is the same. */
  predicate WordImage(g: Geometry, phi: map<nat, nat>, w: u64, w': u64)
    requires GeoOk(g) && InRange(g, phi)
  {
    if InHeap(g, w) then
      && CellOf(g, w) in phi
      && (w' == Aimed(g, w, phi[CellOf(g, w)]) || (w' == w && phi[CellOf(g, w)] == CellOf(g, w)))
    else w' == w
  }

  predicate FieldImage(g: Geometry, phi: map<nat, nat>, isPtr: bool, w: u64, w': u64)
    requires GeoOk(g) && InRange(g, phi)
  {
    if isPtr then WordImage(g, phi, w, w') else w' == w
  }

  /** The object at `s` of `v` and the object at `t` of `v'` have the same start and
      layout, and the same words wherever the layout has no pointers. */
  ghost predicate SameShape(g: Geometry, v: View, v': View, s: nat, t: nat)
    requires |v.starts| == |v.cells| && |v'.starts| == |v'.cells|
  {
    && IsObj(v, s) && IsObj(v', t) && v'.starts[t] == v.starts[s]
    && LayoutAt(g, v', t) == LayoutAt(g, v, s)
    && s + SizeOf(g, v, s) <= |v.cells| && t + SizeOf(g, v, s) <= |v'.cells|
    && forall i: nat | i < SizeOf(g, v, s) && !IsPtrOff(g, v, s, i) :: Field(v', t, i) == Field(v, s, i)
  }

  /** The object at `s` of `v` has moved to `phi[s]` of `v'`, its words following. */
  ghost predicate ObjImage(g: Geometry, v: View, v': View, phi: map<nat, nat>, s: nat)
    requires GeoOk(g) && InRange(g, phi) && s in phi && |v.starts| == |v.cells| && |v'.starts| == |v'.cells|
  {
    && SameShape(g, v, v', s, phi[s])
    && forall i: nat | i < SizeOf(g, v, s) ::
         FieldImage(g, phi, IsPtrOff(g, v, s, i), Field(v, s, i), Field(v', phi[s], i))
  }

  /** `phi` is an isomorphism from the objects of `v` in its domain onto their images in `v'`. */
  ghost predicate Iso(g: Geometry, v: View, v': View, phi: map<nat, nat>)
    requires GeoOk(g)
  {
    && Shaped(g, v) && Shaped(g, v') && InRange(g, phi) && Injective(phi)
    && forall s | s in phi :: ObjImage(g, v, v', phi, s)
  }

  /** First `phi`, then `psi`, for the objects that both keep. */
  function Compose(phi: map<nat, nat>, psi: map<nat, nat>): (r: map<nat, nat>)
    ensures forall s :: s in r <==> s in phi && phi[s] in psi
    ensures forall s | s in r :: r[s] == psi[phi[s]]
    ensures phi.Values <= psi.Keys ==> r.Keys == phi.Keys
  {
    var r := map s | s in phi && phi[s] in psi :: psi[phi[s]];
    assert forall s | s in phi :: phi[s] in phi.Values;
    r
  }

  lemma ComposeFacts(g: Geometry, phi: map<nat, nat>, psi: map<nat, nat>)
    requires InRange(g, phi) && InRange(g, psi) && Injective(phi) && Injective(psi)
    ensures InRange(g, Compose(phi, psi)) && Injective(Compose(phi, psi))
    ensures psi.Keys <= phi.Values ==> Compose(phi, psi).Values == psi.Values
  {
    if psi.Keys <= phi.Values {
      forall x | x in psi.Values ensures x in Compose(phi, psi).Values {
        var t :| t in psi && psi[t] == x;
        assert t in phi.Values;
        var s :| s in phi && phi[s] == t;
        assert Compose(phi, psi)[s] == x;
      }
    }
  }

  /** Only a pointer has a pointer for its image. */
  lemma ImageTarget(g: Geometry, phi: map<nat, nat>, w: u64, w': u64)
    requires GeoOk(g) && InRange(g, phi) && WordImage(g, phi, w, w')
    ensures InHeap(g, w) <==> InHeap(g, w')
    ensures InHeap(g, w) ==> CellOf(g, w) in phi && CellOf(g, w') == phi[CellOf(g, w)]
  {
    if InHeap(g, w) { AimLaw(g, w, phi[CellOf(g, w)]); }
  }

  lemma WordCompose(g: Geometry, phi: map<nat, nat>, psi: map<nat, nat>, w: u64, w1: u64, w2: u64)
    requires GeoOk(g) && InRange(g, phi) && InRange(g, psi) && InRange(g, Compose(phi, psi))
    requires WordImage(g, phi, w, w1) && WordImage(g, psi, w1, w2)
    ensures WordImage(g, Compose(phi, psi), w, w2)
  {
    ImageTarget(g, phi, w, w1);
    if InHeap(g, w) {
      var c := CellOf(g, w);
      AimTwice(g, w, phi[c], psi[phi[c]]);
    }
  }

  /** Isomorphisms compose, so passes, and cycles of passes, do. */
  lemma IsoCompose(g: Geometry, v: View, v1: View, v2: View, phi: map<nat, nat>, psi: map<nat, nat>)
    requires GeoOk(g) && Iso(g, v, v1, phi) && Iso(g, v1, v2, psi)
    ensures Iso(g, v, v2, Compose(phi, psi))
  {
    hide WordImage, SameShape, IsPtrOff, SizeOf, FieldImage;
    var r := Compose(phi, psi);
    ComposeFacts(g, phi, psi);
    forall s | s in r ensures ObjImage(g, v, v2, r, s) {
      ShapeTrans(g, v, v1, v2, s, phi[s], psi[phi[s]]);
      ShapeOffsets(g, v, v1, s, phi[s], 0);
      forall i: nat | i < SizeOf(g, v, s)
        ensures FieldImage(g, r, IsPtrOff(g, v, s, i), Field(v, s, i), Field(v2, r[s], i)) {
        ShapeOffsets(g, v, v1, s, phi[s], i);
        FieldCompose(g, phi, psi, IsPtrOff(g, v, s, i), Field(v, s, i), Field(v1, phi[s], i), Field(v2, r[s], i));
      }
    }
  }

  lemma FieldCompose(g: Geometry, phi: map<nat, nat>, psi: map<nat, nat>, isPtr: bool, w: u64, w1: u64, w2: u64)
    requires GeoOk(g) && InRange(g, phi) && InRange(g, psi) && InRange(g, Compose(phi, psi))
    requires FieldImage(g, phi, isPtr, w, w1) && FieldImage(g, psi, isPtr, w1, w2)
    ensures FieldImage(g, Compose(phi, psi), isPtr, w, w2)
  {
    if isPtr { WordCompose(g, phi, psi, w, w1, w2); }
  }

  lemma ShapeTrans(g: Geometry, v: View, v1: View, v2: View, s: nat, t: nat, u: nat)
    requires |v.starts| == |v.cells| && |v1.starts| == |v1.cells| && |v2.starts| == |v2.cells|
    requires SameShape(g, v, v1, s, t) && SameShape(g, v1, v2, t, u)
    ensures SameShape(g, v, v2, s, u)
  {
  }

  lemma ShapeOffsets(g: Geometry, v: View, v1: View, s: nat, t: nat, i: nat)
    requires |v.starts| == |v.cells| && |v1.starts| == |v1.cells| && SameShape(g, v, v1, s, t)
    ensures s < |v.starts| && t < |v1.starts| && LayoutAt(g, v1, t) == LayoutAt(g, v, s)
    ensures SizeOf(g, v, s) == SizeOf(g, v1, t) && (IsPtrOff(g, v1, t, i) <==> IsPtrOff(g, v, s, i))
    ensures i < SizeOf(g, v, s) ==> s + i < |v.cells| && t + i < |v1.cells|
  {
  }

  // -- Isomorphism and validity ---------------------------------------------

  /** A pointer field leads where it should: to the start of an object in `live`. */
  predicate ValidField(g: Geometry, v: View, live: set<nat>, w: u64) {
    InHeap(g, w) ==>
      && CellOf(g, w) in live && IsObj(v, CellOf(g, w))
      && (g.layout.classify(w).PointerCons? <==> v.starts[CellOf(g, w)] == ConsStart)
  }

  /** The objects of `live` are well-formed and point only at each other. */
  ghost predicate ClosedHeap(g: Geometry, v: View, live: set<nat>)
    requires Shaped(g, v)
  {
    forall s | s in live ::
      && IsObj(v, s) && s + SizeOf(g, v, s) <= |v.cells|
      && forall i: nat | i < SizeOf(g, v, s) && IsPtrOff(g, v, s, i) :: ValidField(g, v, live, Field(v, s, i))
  }

  /** An isomorphism carries validity over to the image. */
  lemma ClosedImage(g: Geometry, v: View, v': View, phi: map<nat, nat>)
    requires GeoOk(g) && Iso(g, v, v', phi) && ClosedHeap(g, v, phi.Keys)
    ensures ClosedHeap(g, v', phi.Values)
  {
    hide ValidField, WordImage, SameShape, IsPtrOff, SizeOf;
    forall t | t in phi.Values
      ensures IsObj(v', t) && t + SizeOf(g, v', t) <= |v'.cells|
      ensures forall i: nat | i < SizeOf(g, v', t) && IsPtrOff(g, v', t, i) ::
                ValidField(g, v', phi.Values, Field(v', t, i))
    {
      var s :| s in phi && phi[s] == t;
      assert ObjImage(g, v, v', phi, s);
      ShapeFit(g, v, v', s, t);
      forall i: nat | i < SizeOf(g, v', t) && IsPtrOff(g, v', t, i)
        ensures ValidField(g, v', phi.Values, Field(v', t, i)) {
        ShapeOffsets(g, v, v', s, t, i);
        ValidImage(g, v, v', phi, Field(v, s, i), Field(v', t, i));
      }
    }
  }

  lemma ShapeFit(g: Geometry, v: View, v': View, s: nat, t: nat)
    requires |v.starts| == |v.cells| && |v'.starts| == |v'.cells| && SameShape(g, v, v', s, t)
    ensures IsObj(v, s) && IsObj(v', t) && SizeOf(g, v', t) == SizeOf(g, v, s)
    ensures s + SizeOf(g, v, s) <= |v.cells| && t + SizeOf(g, v', t) <= |v'.cells| && v'.starts[t] == v.starts[s]
  {
  }

  /** The image of a valid word is valid. */
  lemma ValidImage(g: Geometry, v: View, v': View, phi: map<nat, nat>, w: u64, w': u64)
    requires GeoOk(g) && Iso(g, v, v', phi) && WordImage(g, phi, w, w') && ValidField(g, v, phi.Keys, w)
    ensures ValidField(g, v', phi.Values, w')
  {
    if InHeap(g, w) {
      var c := CellOf(g, w);
      AimLaw(g, w, phi[c]);
      assert ObjImage(g, v, v', phi, c);
      assert phi[c] in phi.Values;
    }
  }

  /** The identity on a closed set. */
  lemma IsoRefl(g: Geometry, v: View, live: set<nat>)
    requires GeoOk(g) && Shaped(g, v) && ClosedHeap(g, v, live)
    ensures Iso(g, v, v, map s | s in live :: s)
  {
  }

  /** Roots that follow their objects. */
  ghost predicate RootsImage(g: Geometry, phi: map<nat, nat>, before: seq<u64>, after: seq<u64>)
    requires GeoOk(g) && InRange(g, phi)
  {
    |after| == |before| && forall i | 0 <= i < |before| :: WordImage(g, phi, before[i], after[i])
  }

  lemma RootsCompose(g: Geometry, phi: map<nat, nat>, psi: map<nat, nat>, r0: seq<u64>, r1: seq<u64>, r2: seq<u64>)
    requires GeoOk(g) && InRange(g, phi) && InRange(g, psi) && InRange(g, Compose(phi, psi))
    requires RootsImage(g, phi, r0, r1) && RootsImage(g, psi, r1, r2)
    ensures RootsImage(g, Compose(phi, psi), r0, r2)
  {
    hide WordImage;
    forall i | 0 <= i < |r0| ensures WordImage(g, Compose(phi, psi), r0[i], r2[i]) {
      WordCompose(g, phi, psi, r0[i], r1[i], r2[i]);
    }
  }
}
