/** What moving objects means for words and for the object graph. */
module Moves {
  import opened Bits
  import opened Options
  import opened Bitmaps
  import opened Pages
  import opened Objects
  import opened Cards

  // -- Following forwarding markers -----------------------------------------

  /** Every target of `f` is a cell of the reservation. */
  ghost predicate InRange(g: Geometry, f: map<nat, nat>) {
    forall s | s in f :: f[s] < PAGE_CELLS * g.nPages
  }

  /** `w` with its address relocated by `f` and its tag kept. */
  function Reloc(g: Geometry, f: map<nat, nat>, w: u64): u64
    requires GeoOk(g) && InRange(g, f)
  {
    if InHeap(g, w) && CellOf(g, w) in f then Aimed(g, w, f[CellOf(g, w)]) else w
  }

  lemma RelocLaw(g: Geometry, f: map<nat, nat>, w: u64)
    requires GeoOk(g) && InRange(g, f) && f.Values !! f.Keys
    ensures Reloc(g, f, Reloc(g, f, w)) == Reloc(g, f, w)
    ensures IsMarker(g, Reloc(g, f, w)) <==> IsMarker(g, w)
    ensures InHeap(g, Reloc(g, f, w)) <==> InHeap(g, w)
    ensures InHeap(g, w) ==> CellOf(g, Reloc(g, f, w)) == if CellOf(g, w) in f then f[CellOf(g, w)] else CellOf(g, w)
    ensures g.layout.classify(w).PointerCons? <==> g.layout.classify(Reloc(g, f, w)).PointerCons?
  {
    if InHeap(g, w) && CellOf(g, w) in f {
      AimLaw(g, w, f[CellOf(g, w)]);
      assert f[CellOf(g, w)] in f.Values;
    }
  }

  /** The markers of `v` are exactly those of `f`, and nothing is forwarded twice. */
  ghost predicate FwdMap(g: Geometry, v: View, f: map<nat, nat>)
    requires GeoOk(g) && Shaped(g, v)
  {
    && InRange(g, f) && f.Values !! f.Keys
    && (forall s | s in f :: IsObj(v, s) && v.cells[s] == Marker(g, f[s]))
    && (forall s: nat | s < |v.starts| && IsObj(v, s) && IsMarker(g, v.cells[s]) :: s in f)
  }

  /** All objects that are not forwarded are well-formed, and all conses are whole. */
  ghost predicate PartOk(g: Geometry, v: View) {
    && Shaped(g, v)
    && (forall s: nat | s < |v.starts| && IsObj(v, s) && !IsMarker(g, v.cells[s]) :: ObjOk(g, v, s))
    && (forall s: nat | s < |v.starts| && IsObj(v, s) && v.starts[s] == ConsStart :: Whole(g, v, s))
  }

  /** `c` is a pointer cell of an object that is not forwarded. */
  predicate LivePtr(g: Geometry, v: View, c: nat)
    requires c < |v.starts| == |v.cells|
  {
    PtrCellAt(g, v, c) && !IsMarker(g, v.cells[Owner(v.starts, c).value])
  }

  /** `c` is a pointer cell of an object whose extent can be told: one that is not
      forwarded, or a cons, whose size is in its start. */
  predicate PlainPtr(g: Geometry, v: View, c: nat)
    requires c < |v.starts| == |v.cells|
  {
    && PtrCellAt(g, v, c)
    && (!IsMarker(g, v.cells[Owner(v.starts, c).value]) || v.starts[Owner(v.starts, c).value] == ConsStart)
  }

  /** The word at `c` does not matter, or does not point into the heap: it lies on a Free page, in no
      object, or in a headed object that was forwarded; or it is a header that is no pointer. */
  predicate Loose(g: Geometry, v: View, c: nat)
    requires c < |v.starts| == |v.cells|
  {
    || (c / PAGE_CELLS < |v.descs| && GenAt(v, c) == Free)
    || (v.starts[c] == NoStart && (Owner(v.starts, c).Some? ==>
          v.starts[Owner(v.starts, c).value] == HeaderStart && IsMarker(g, v.cells[Owner(v.starts, c).value])))
    || (v.starts[c] == HeaderStart && !InHeap(g, v.cells[c]))
  }

  /** The cells that Phase 2 may come to. */
  predicate Rewritable(g: Geometry, v: View, c: nat)
    requires c < |v.starts| == |v.cells|
  {
    PlainPtr(g, v, c) || Loose(g, v, c)
  }

  /** `v'` is `v` with the words of the cells in `touched` relocated. */
  ghost predicate Rewrote(g: Geometry, f: map<nat, nat>, v: View, v': View, touched: set<nat>)
    requires GeoOk(g) && InRange(g, f)
  {
    && v'.starts == v.starts && v'.descs == v.descs && |v'.cells| == |v.cells|
    && (forall c | c in touched :: c < |v.cells|)
    && forall c | 0 <= c < |v.cells| :: v'.cells[c] == if c in touched then Reloc(g, f, v.cells[c]) else v.cells[c]
  }

  /** What Phase 2 may touch. */
  ghost predicate OnlyRewritable(g: Geometry, v: View, touched: set<nat>)
    requires |v.starts| == |v.cells|
  {
    forall c | c in touched :: c < |v.cells| && Rewritable(g, v, c)
  }

  lemma PtrCellOwned(g: Geometry, v: View, s: nat, c: nat)
    requires PartOk(g, v) && IsObj(v, s) && !IsMarker(g, v.cells[s]) && c in PtrCells(g, v, s)
    ensures c < |v.cells| && LivePtr(g, v, c) && Owner(v.starts, c) == Some(s)
  {
    PtrOwner(g, v, s, c);
  }

  /** A header is never a pointer cell, so its object keeps its layout. */
  lemma RewroteLayout(g: Geometry, f: map<nat, nat>, v: View, v': View, touched: set<nat>, s: nat)
    requires GeoOk(g) && PartOk(g, v) && FwdMap(g, v, f) && OnlyRewritable(g, v, touched)
    requires Rewrote(g, f, v, v', touched) && IsObj(v, s)
    ensures IsObj(v', s) && LayoutAt(g, v', s) == LayoutAt(g, v, s)
    ensures IsMarker(g, v'.cells[s]) <==> IsMarker(g, v.cells[s])
    ensures IsMarker(g, v.cells[s]) ==> v'.cells[s] == v.cells[s]
  {
    RelocLaw(g, f, v.cells[s]);
    if s in touched {
      assert Owner(v.starts, s) == Some(s);
    }
  }

  /** What Phase 2 may come to it may come to again. */
  lemma StillRewritable(g: Geometry, f: map<nat, nat>, v: View, v': View, touched: set<nat>, c: nat)
    requires GeoOk(g) && PartOk(g, v) && FwdMap(g, v, f) && OnlyRewritable(g, v, touched)
    requires Shaped(g, v) && Rewrote(g, f, v, v', touched) && c < |v.starts| && Rewritable(g, v, c)
    ensures Rewritable(g, v', c)
  {
    hide PartOk, FwdMap, OnlyRewritable, LayoutAt, Reloc, IsMarker;
    var o := Owner(v.starts, c);
    if GenAt(v, c) == Free { return; }
    if o.Some? {
      assert IsObj(v, o.value);
      RewroteLayout(g, f, v, v', touched, o.value);
    }
    FwdParts(g, v, f);
    RelocLaw(g, f, v.cells[c]);
  }

  lemma FwdParts(g: Geometry, v: View, f: map<nat, nat>)
    requires GeoOk(g) && Shaped(g, v) && FwdMap(g, v, f)
    ensures InRange(g, f) && f.Values !! f.Keys
  {
  }

  /** Rewriting leaves the markers and the shape of the heap alone. */
  lemma RewroteOk(g: Geometry, f: map<nat, nat>, v: View, v': View, touched: set<nat>)
    requires GeoOk(g) && PartOk(g, v) && FwdMap(g, v, f) && OnlyRewritable(g, v, touched)
    requires Rewrote(g, f, v, v', touched)
    ensures PartOk(g, v') && FwdMap(g, v', f)
    ensures OnlyRewritable(g, v', touched)
  {
    forall s: nat | s < |v.starts| && IsObj(v, s)
      ensures LayoutAt(g, v', s) == LayoutAt(g, v, s)
      ensures IsMarker(g, v'.cells[s]) <==> IsMarker(g, v.cells[s])
      ensures IsMarker(g, v.cells[s]) ==> v'.cells[s] == v.cells[s]
      ensures !IsMarker(g, v.cells[s]) ==> ObjOk(g, v', s)
    {
      RewroteLayout(g, f, v, v', touched, s);
      if !IsMarker(g, v.cells[s]) {
        assert ObjOk(g, v, s);
        DecodesKept(g, f, v, v', touched, s);
      }
    }
    hide Rewritable, IsMarker, ObjOk;
    forall c | c in touched ensures c < |v'.cells| && Rewritable(g, v', c) {
      StillRewritable(g, f, v, v', touched, c);
    }
  }

  lemma DecodesKept(g: Geometry, f: map<nat, nat>, v: View, v': View, touched: set<nat>, s: nat)
    requires GeoOk(g) && PartOk(g, v) && FwdMap(g, v, f) && OnlyRewritable(g, v, touched)
    requires Rewrote(g, f, v, v', touched) && IsObj(v, s)
    ensures v.starts[s] == HeaderStart && g.layout.decodes(v.cells[s]) ==> v'.cells[s] == v.cells[s]
  {
    if s in touched {
      assert Owner(v.starts, s) == Some(s);
    }
  }

  /** Touching one more pointer cell. */
  lemma RewroteOne(g: Geometry, f: map<nat, nat>, v: View, v1: View, v2: View, touched: set<nat>, c: nat)
    requires GeoOk(g) && InRange(g, f) && f.Values !! f.Keys && Rewrote(g, f, v, v1, touched) && c < |v.cells|
    requires v2 == v1.(cells := v1.cells[c := Reloc(g, f, v1.cells[c])])
    ensures Rewrote(g, f, v, v2, touched + {c})
  {
    RelocLaw(g, f, v.cells[c]);
  }
}
