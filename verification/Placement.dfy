/** Where the objects are while a pass works through its source pages. */
module Placement {
  import opened Pages
  import opened Objects
  import opened Moves
  import opened Copying
  import opened Reclaiming
  import opened Graphs
  import opened Chunks

  /** The objects a pass keeps: all that are not in `from`, and the marked ones in it. */
  function LiveSet(v: View, from: Generation, marks: seq<bool>): set<nat> {
    set s | 0 <= s < |v.starts| && IsObj(v, s) && (GenAt(v, s) != from || (s < |marks| && marks[s]))
  }

  /** The object of `vs` at `s` is in its place at `t`: unmoved outside `from` and on
      pages still to come, in `dest` once its page is done. */
  ghost predicate InPlace(g: Geometry, vs: View, v: View, pins: set<nat>, from: Generation, dest: Generation,
                          rest: set<nat>, s: nat, t: nat)
    requires Shaped(g, vs) && Shaped(g, v)
  {
    && SameShape(g, vs, v, s, t)
    && (s in pins ==> t == s)
    && (if GenAt(vs, s) != from then t == s && GenAt(v, s) == GenAt(vs, s)
        else if s / PAGE_CELLS in rest then t == s
        else GenAt(v, t) == dest && t / PAGE_CELLS !in rest)
  }

  /** The pages still to come are as they were, and no page in use left its generation but those done. */
  ghost predicate RestKept(vs: View, v: View, from: Generation, rest: set<nat>)
    requires |vs.descs| == |v.descs| && |vs.starts| == |v.starts|
  {
    && (forall p | p in rest :: p < |vs.descs| && v.descs[p] == vs.descs[p] && vs.descs[p].generation == from)
    && (forall c: nat | c < |vs.starts| && c / PAGE_CELLS in rest :: v.starts[c] == vs.starts[c])
    && (forall p | 0 <= p < |vs.descs| && vs.descs[p].generation != Free && vs.descs[p].generation != from ::
          v.descs[p].generation == vs.descs[p].generation)
  }

  /** `phi` says where each live object of `vs` is in `v`, with the pages of `rest`
      still to be evacuated; apart from those pages there are no other objects. */
  ghost predicate Placed(g: Geometry, vs: View, v: View, phi: map<nat, nat>, live: set<nat>, pins: set<nat>,
                         from: Generation, dest: Generation, rest: set<nat>)
  {
    && Shaped(g, vs) && Shaped(g, v) && phi.Keys == live && InRange(g, phi) && Injective(phi)
    && (forall s | s in phi :: InPlace(g, vs, v, pins, from, dest, rest, s, phi[s]))
    && (forall x: nat | x < |v.starts| && IsObj(v, x) && x / PAGE_CELLS !in rest :: x in phi.Values)
    && RestKept(vs, v, from, rest)
  }

  /** Who is to be found on a page still to come: unmoved objects only. */
  lemma OnRest(g: Geometry, vs: View, v: View, phi: map<nat, nat>, live: set<nat>, pins: set<nat>,
               from: Generation, dest: Generation, rest: set<nat>, s: nat)
    requires Placed(g, vs, v, phi, live, pins, from, dest, rest) && s in phi && phi[s] / PAGE_CELLS in rest
    ensures phi[s] == s && IsObj(vs, s) && GenAt(vs, s) == from && s / PAGE_CELLS in rest
  {
    hide SameShape;
    assert InPlace(g, vs, v, pins, from, dest, rest, s, phi[s]);
    ShapeFit(g, vs, v, s, phi[s]);
  }

  lemma RestObject(g: Geometry, vs: View, v: View, from: Generation, rest: set<nat>, x: nat)
    requires Shaped(g, vs) && Shaped(g, v) && RestKept(vs, v, from, rest) && x / PAGE_CELLS in rest
    ensures IsObj(v, x) <==> IsObj(vs, x)
    ensures IsObj(v, x) ==> GenAt(vs, x) == from
  {
  }

  /** What a chunk moves is live. */
  lemma MovedIsLive(g: Geometry, vs: View, v: View, phi: map<nat, nat>, live: set<nat>, pins: set<nat>,
                    from: Generation, dest: Generation, rest: set<nat>, marks: seq<bool>, chunk: seq<nat>, t: nat)
    requires Placed(g, vs, v, phi, live, pins, from, dest, rest) && live == LiveSet(vs, from, marks)
    requires t in MovableIn(v, marks, pins, from, chunk) && (forall i | 0 <= i < |chunk| :: chunk[i] in rest)
    ensures t in phi && phi[t] == t && t in phi.Values
  {
    hide SameShape;
    assert MovableFrom(v, marks, pins, from, chunk, t);
    assert IsObj(v, t) && t / PAGE_CELLS in rest;
    RestObject(g, vs, v, from, rest, t);
    assert t in live;
    assert InPlace(g, vs, v, pins, from, dest, rest, t, phi[t]);
  }

  /** Every live object survives the chunk. */
  lemma LiveSurvives(g: Geometry, vs: View, v: View, phi: map<nat, nat>, live: set<nat>, pins: set<nat>,
                     from: Generation, dest: Generation, rest: set<nat>, marks: seq<bool>, chunk: seq<nat>,
                     f: map<nat, nat>, t: nat)
    requires Placed(g, vs, v, phi, live, pins, from, dest, rest) && live == LiveSet(vs, from, marks) && NoLarge(v)
    requires f.Keys == MovableIn(v, marks, pins, from, chunk) && (forall i | 0 <= i < |chunk| :: chunk[i] in rest)
    requires t in phi.Values
    ensures Survives(f, Before(chunk, |chunk|), pins, t) && IsObj(v, t)
  {
    hide SameShape;
    var s :| s in phi && phi[s] == t;
    assert InPlace(g, vs, v, pins, from, dest, rest, s, t);
    ShapeFit(g, vs, v, s, t);
    assert chunk[..|chunk|] == chunk;
    if t / PAGE_CELLS in chunk && t !in pins {
      OnRest(g, vs, v, phi, live, pins, from, dest, rest, s);
      assert Movable(v, marks, pins, t);
      assert MovableFrom(v, marks, pins, from, chunk, t);
      assert t in MovableIn(v, marks, pins, from, chunk);
    }
  }

  /** The facts a chunk step gives about pages and generations. */
  ghost predicate ChunkTables(vs: View, v0: View, v3: View, from: Generation, dest: Generation, rest: set<nat>,
                              done: set<nat>, f: map<nat, nat>)
    requires |vs.descs| == |v0.descs| == |v3.descs| && |vs.starts| == |v0.starts| == |v3.starts|
  {
    && done <= rest
    && RestKept(vs, v3, from, rest - done)
    && (forall s | s in f :: s / PAGE_CELLS in done && f[s] / PAGE_CELLS !in rest)
  }

  /** The live object at `s` is in its place after the chunk too. */
  lemma InPlaceStep(g: Geometry, vs: View, v0: View, v1: View, v2: View, v3: View, phi: map<nat, nat>, live: set<nat>,
                    pins: set<nat>, from: Generation, dest: Generation, rest: set<nat>, done: set<nat>,
                    f: map<nat, nat>, touched: set<nat>, s: nat)
    requires GeoOk(g) && Placed(g, vs, v0, phi, live, pins, from, dest, rest)
    requires ChunkStep(g, v0, v1, v2, v3, f, touched, done, pins, dest) && Shaped(g, v3)
    requires ChunkTables(vs, v0, v3, from, dest, rest, done, f) && dest != Free
    requires s in phi && IsObj(v0, phi[s]) && Survives(f, done, pins, phi[s])
    ensures InPlace(g, vs, v3, pins, from, dest, rest - done, s, Place(f, phi[s]))
  {
    hide SameShape, ChunkStep, Carried;
    var t := phi[s];
    var t' := Place(f, t);
    assert InPlace(g, vs, v0, pins, from, dest, rest, s, t);
    Survivor(g, v0, v1, v2, v3, f, touched, done, pins, dest, t);
    CarriedShape(g, f, touched, v0, v3, t);
    ShapeTrans(g, vs, v0, v3, s, t, t');
    ShapeFit(g, vs, v0, s, t);
    if t in f || t / PAGE_CELLS in done { OnRest(g, vs, v0, phi, live, pins, from, dest, rest, s); }
    if t in f { MovedOff(g, v0, v1, v2, v3, f, touched, done, pins, dest, t); }
    if t in pins { PinsNotMoved(g, v0, v1, v2, v3, f, touched, done, pins, dest, t); }
    if s / PAGE_CELLS in done { assert t == s; }
  }

  lemma CarriedShape(g: Geometry, f: map<nat, nat>, touched: set<nat>, v0: View, v3: View, t: nat)
    requires GeoOk(g) && InRange(g, f) && |v0.starts| == |v0.cells| && |v3.starts| == |v3.cells|
    requires Carried(g, f, touched, v0, v3, t)
    ensures SameShape(g, v0, v3, t, Place(f, t))
  {
    hide SameShape, Reloc;
  }

  lemma MovedOff(g: Geometry, v0: View, v1: View, v2: View, v3: View, f: map<nat, nat>, touched: set<nat>,
                 chunk: set<nat>, pins: set<nat>, dest: Generation, t: nat)
    requires GeoOk(g) && ChunkStep(g, v0, v1, v2, v3, f, touched, chunk, pins, dest) && t in f
    ensures t / PAGE_CELLS in chunk && t !in pins && f[t] / PAGE_CELLS !in chunk
  {
    hide Copied, Rewrote, FwdMap, PartOk, HeapOk, PinsOk, PinsSolid, OnlyRewritable, ReclaimedView;
  }

  lemma PinsNotMoved(g: Geometry, v0: View, v1: View, v2: View, v3: View, f: map<nat, nat>, touched: set<nat>,
                     chunk: set<nat>, pins: set<nat>, dest: Generation, t: nat)
    requires GeoOk(g) && ChunkStep(g, v0, v1, v2, v3, f, touched, chunk, pins, dest) && t in pins
    ensures t !in f
  {
    hide Copied, Rewrote, FwdMap, PartOk, HeapOk, PinsOk, PinsSolid, OnlyRewritable, ReclaimedView;
  }

  /** After the chunk, what is not on a page still to come is live. */
  lemma LiveAfter(g: Geometry, vs: View, v0: View, v1: View, v2: View, v3: View, phi: map<nat, nat>, live: set<nat>,
                  pins: set<nat>, from: Generation, dest: Generation, rest: set<nat>, done: set<nat>, f: map<nat, nat>,
                  touched: set<nat>, x: nat)
    requires GeoOk(g) && Placed(g, vs, v0, phi, live, pins, from, dest, rest)
    requires ChunkStep(g, v0, v1, v2, v3, f, touched, done, pins, dest) && Shaped(g, v3)
    requires ChunkTables(vs, v0, v3, from, dest, rest, done, f) && dest != Free
    requires f.Keys <= phi.Values && (forall s | s in pins :: s in live)
    requires IsObj(v3, x) && x / PAGE_CELLS !in rest - done
    ensures exists t :: t in phi.Values && Place(f, t) == x
  {
    hide ChunkStep;
    NoOthers(g, v0, v1, v2, v3, f, touched, done, pins, dest, x);
    if x in f.Values {
      var t :| t in f && f[t] == x;
      assert t in f.Keys && Place(f, t) == x;
    } else if x / PAGE_CELLS !in rest {
      assert Place(f, x) == x;
    } else {
      assert x in pins;
      assert InPlace(g, vs, v0, pins, from, dest, rest, x, phi[x]);
      assert phi[x] == x && Place(f, x) == x;
    }
  }

  /** The relocation after the chunk. */
  function Onward(phi: map<nat, nat>, f: map<nat, nat>): (r: map<nat, nat>)
    ensures r == Compose(phi, Moving(f, phi.Values))
    ensures r.Keys == phi.Keys && forall s | s in phi :: r[s] == Place(f, phi[s])
  {
    Compose(phi, Moving(f, phi.Values))
  }

  lemma OnwardInjective(g: Geometry, v0: View, v1: View, phi: map<nat, nat>, f: map<nat, nat>, dest: Generation)
    requires GeoOk(g) && Copied(g, v0, v1, f, dest) && InRange(g, phi) && Injective(phi)
    requires forall t | t in phi.Values :: IsObj(v0, t)
    ensures InRange(g, Onward(phi, f)) && Injective(Onward(phi, f))
  {
    hide Copied;
    MovingInjective(g, v0, v1, f, dest, phi.Values);
    ComposeFacts(g, phi, Moving(f, phi.Values));
  }

  lemma StepCopied(g: Geometry, v0: View, v1: View, v2: View, v3: View, f: map<nat, nat>, touched: set<nat>,
                   chunk: set<nat>, pins: set<nat>, dest: Generation)
    requires GeoOk(g) && ChunkStep(g, v0, v1, v2, v3, f, touched, chunk, pins, dest)
    ensures Copied(g, v0, v1, f, dest) && HeapOk(g, v0) && PartOk(g, v1) && FwdMap(g, v1, f)
  {
    hide Copied, Rewrote, FwdMap, PartOk, HeapOk, PinsOk, PinsSolid, OnlyRewritable, ReclaimedView;
  }

  lemma LiveInChunk(g: Geometry, vs: View, v0: View, phi: map<nat, nat>, live: set<nat>, pins: set<nat>,
                    from: Generation, dest: Generation, rest: set<nat>, chunk: seq<nat>, f: map<nat, nat>,
                    marks: seq<bool>)
    requires Placed(g, vs, v0, phi, live, pins, from, dest, rest) && live == LiveSet(vs, from, marks) && NoLarge(v0)
    requires f.Keys == MovableIn(v0, marks, pins, from, chunk) && (forall i | 0 <= i < |chunk| :: chunk[i] in rest)
    ensures f.Keys <= phi.Values
    ensures forall t | t in phi.Values :: Survives(f, Before(chunk, |chunk|), pins, t) && IsObj(v0, t)
  {
    hide Placed, MovableIn, LiveSet, Before, IsObj, Survives, NoLarge;
    forall t | t in f.Keys ensures t in phi.Values {
      MovedIsLive(g, vs, v0, phi, live, pins, from, dest, rest, marks, chunk, t);
    }
    forall t | t in phi.Values ensures Survives(f, Before(chunk, |chunk|), pins, t) && IsObj(v0, t) {
      LiveSurvives(g, vs, v0, phi, live, pins, from, dest, rest, marks, chunk, f, t);
    }
  }

  lemma PlacedShape(g: Geometry, vs: View, v0: View, phi: map<nat, nat>, live: set<nat>, pins: set<nat>,
                    from: Generation, dest: Generation, rest: set<nat>)
    requires Placed(g, vs, v0, phi, live, pins, from, dest, rest)
    ensures Shaped(g, vs) && Shaped(g, v0) && phi.Keys == live && InRange(g, phi) && Injective(phi)
    ensures forall s | s in phi :: phi[s] in phi.Values
  {
    hide InPlace, RestKept;
  }

  lemma ImageOf(phi: map<nat, nat>, f: map<nat, nat>, x: nat)
    requires exists t :: t in phi.Values && Place(f, t) == x
    ensures x in Onward(phi, f).Values
  {
    var t :| t in phi.Values && Place(f, t) == x;
    var s :| s in phi && phi[s] == t;
    assert Onward(phi, f)[s] == x;
  }

  /** The chunk keeps every live object in place. */
  lemma PlacedStep(g: Geometry, vs: View, v0: View, v1: View, v2: View, v3: View, phi: map<nat, nat>, live: set<nat>,
                   pins: set<nat>, from: Generation, dest: Generation, rest: set<nat>, done: set<nat>, f: map<nat, nat>,
                   touched: set<nat>)
    requires GeoOk(g) && Placed(g, vs, v0, phi, live, pins, from, dest, rest)
    requires ChunkStep(g, v0, v1, v2, v3, f, touched, done, pins, dest) && Shaped(g, v3)
    requires ChunkTables(vs, v0, v3, from, dest, rest, done, f) && dest != Free
    requires f.Keys <= phi.Values && (forall t | t in phi.Values :: Survives(f, done, pins, t) && IsObj(v0, t))
    requires forall s | s in pins :: s in live
    ensures Placed(g, vs, v3, Onward(phi, f), live, pins, from, dest, rest - done)
  {
    hide ChunkStep, InPlace, RestKept, IsObj, Survives, Placed, Place, Copied;
    PlacedShape(g, vs, v0, phi, live, pins, from, dest, rest);
    StepCopied(g, v0, v1, v2, v3, f, touched, done, pins, dest);
    OnwardInjective(g, v0, v1, phi, f, dest);
    var r := Onward(phi, f);
    forall s | s in r ensures InPlace(g, vs, v3, pins, from, dest, rest - done, s, r[s]) {
      assert phi[s] in phi.Values;
      InPlaceStep(g, vs, v0, v1, v2, v3, phi, live, pins, from, dest, rest, done, f, touched, s);
    }
    forall x: nat | x < |v3.starts| && IsObj(v3, x) && x / PAGE_CELLS !in rest - done ensures x in r.Values {
      LiveAfter(g, vs, v0, v1, v2, v3, phi, live, pins, from, dest, rest, done, f, touched, x);
      ImageOf(phi, f, x);
    }
    MakePlaced(g, vs, v3, r, live, pins, from, dest, rest - done);
  }

  lemma MakePlaced(g: Geometry, vs: View, v: View, phi: map<nat, nat>, live: set<nat>, pins: set<nat>,
                   from: Generation, dest: Generation, rest: set<nat>)
    requires Shaped(g, vs) && Shaped(g, v) && phi.Keys == live && InRange(g, phi) && Injective(phi)
    requires forall s | s in phi :: InPlace(g, vs, v, pins, from, dest, rest, s, phi[s])
    requires forall x: nat | x < |v.starts| && IsObj(v, x) && x / PAGE_CELLS !in rest :: x in phi.Values
    requires RestKept(vs, v, from, rest)
    ensures Placed(g, vs, v, phi, live, pins, from, dest, rest)
  {
    hide InPlace, RestKept, IsObj;
  }
}
