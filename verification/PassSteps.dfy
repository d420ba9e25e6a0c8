/** The remaining invariants of a pass: pages, cards and gaps. */
module PassSteps {
  import opened Pages
  import opened Objects
  import opened Cards
  import opened Moves
  import opened Copying
  import opened Reclaiming
  import opened Graphs
  import opened Chunks
  import opened Placement
  import opened Passes

  // -- Pages ----------------------------------------------------------------

  /** After the chunk, the pages still to come are as they were. */
  lemma TablesStep(g: Geometry, vs: View, v0: View, cards0: seq<bool>, v1: View, cards1: seq<bool>, v2: View, v3: View,
                   f: map<nat, nat>, touched: set<nat>, from: Generation, dest: Generation, rest: set<nat>,
                   done: set<nat>, pins: set<nat>)
    requires GeoOk(g) && Shaped(g, vs) && Shaped(g, v0) && RestKept(vs, v0, from, rest) && from != Free && dest != Free
    requires CopySoFar(g, v0, cards0, v1, cards1, f, dest, rest) && done <= rest
    requires ChunkStep(g, v0, v1, v2, v3, f, touched, done, pins, dest) && Shaped(g, v1) && Shaped(g, v3)
    ensures ChunkTables(vs, v0, v3, from, dest, rest, done, f)
  {
    hide CopyAt, Kept, HeapOk, PartOk, CopiesCarded, TiledKept, Copied, Rewrote, FwdMap, PinsOk, PinsSolid,
      OnlyRewritable, InPinned;
    ChunkShapes(g, v0, v1, v2, v3, f, touched, done, pins, dest);
    forall c: nat | c < |vs.starts| && c / PAGE_CELLS in rest - done ensures v3.starts[c] == vs.starts[c] {
      SealedStart(g, v0, cards0, v1, cards1, f, dest, rest, c);
    }
  }

  // -- Gaps -----------------------------------------------------------------

  /** Pages done with are without gaps, if they were at the start and had no pins, and so are those of other
      generations, pins or not. */
  ghost predicate TiledSoFar(g: Geometry, vs: View, v: View, from: Generation, rest: set<nat>)
    requires Shaped(g, vs) && Shaped(g, v)
  {
    forall p | 0 <= p < |vs.descs| && p !in rest && Tiled(g, vs, p) && UnlessPinned(vs.descs[p], from) :: Tiled(g, v, p)
  }

  predicate UnlessPinned(d: PageDesc, from: Generation) { d.generation == from ==> !d.HasPins() }

  lemma TiledAfterRewrite(g: Geometry, v1: View, v2: View, f: map<nat, nat>, touched: set<nat>, p: nat)
    requires GeoOk(g) && PartOk(g, v1) && FwdMap(g, v1, f) && OnlyRewritable(g, v1, touched)
    requires Rewrote(g, f, v1, v2, touched)
    requires p < |v1.descs| && v1.descs[p].generation != Free && Tiled(g, v1, p) && Shaped(g, v2)
    ensures Tiled(g, v2, p)
  {
    hide Tiled, PartOk, FwdMap, OnlyRewritable, Reloc, LayoutAt;
    forall y: nat | y < |v2.starts| && y / PAGE_CELLS == p && y % PAGE_CELLS < v2.descs[p].wordsUsed
      ensures Covered(g, v2, y) {
      TiledAt(g, v1, p, y);
      RewroteLayout(g, f, v1, v2, touched, Owner(v1.starts, y).value);
    }
    TiledBy(g, v2, p);
  }

  lemma TiledAfterReclaim(g: Geometry, v2: View, done: set<nat>, pins: set<nat>, dest: Generation, p: nat)
    requires Shaped(g, v2) && p < |v2.descs| && Shaped(g, ReclaimedView(g, v2, done, pins, dest))
    requires if p in done then v2.descs[p].generation != Free && !v2.descs[p].HasPins() else Tiled(g, v2, p)
    ensures Tiled(g, ReclaimedView(g, v2, done, pins, dest), p)
  {
    var v3 := ReclaimedView(g, v2, done, pins, dest);
    hide InPinned, Owner;
    if p !in done {
      forall y: nat | y < |v3.starts| && y / PAGE_CELLS == p && y % PAGE_CELLS < v3.descs[p].wordsUsed
        ensures Covered(g, v3, y) {
        assert forall x: nat | y / PAGE_CELLS * PAGE_CELLS <= x <= y :: x / PAGE_CELLS == p;
        SameCovered(g, v2, v3, y);
      }
    }
  }

  lemma NoFillTiled(g: Geometry, v: View, p: nat)
    requires Shaped(g, v) && p < |v.descs| && v.descs[p].wordsUsed == 0
    ensures Tiled(g, v, p)
  {
  }

  lemma TiledStep(g: Geometry, vs: View, v0: View, cards0: seq<bool>, v1: View, cards1: seq<bool>, v2: View, v3: View,
                  f: map<nat, nat>, touched: set<nat>, from: Generation, dest: Generation, rest: set<nat>,
                  done: set<nat>, pins: set<nat>)
    requires GeoOk(g) && Shaped(g, vs) && Shaped(g, v0) && RestKept(vs, v0, from, rest) && from != Free
    requires TiledSoFar(g, vs, v0, from, rest) && done <= rest
    requires CopySoFar(g, v0, cards0, v1, cards1, f, dest, rest)
    requires ChunkStep(g, v0, v1, v2, v3, f, touched, done, pins, dest) && Shaped(g, v1) && Shaped(g, v2)
    requires Shaped(g, v3)
    requires forall p | 0 <= p < |v1.descs| && v1.descs[p].generation == Free :: v1.descs[p].wordsUsed == 0
    ensures TiledSoFar(g, vs, v3, from, rest - done)
  {
    hide CopyAt, Kept, HeapOk, PartOk, CopiesCarded, Copied, FwdMap, PinsOk, PinsSolid, OnlyRewritable, InPinned,
      Tiled, ReclaimedView, DescsGrown, ObjOk;
    ChunkShapes(g, v0, v1, v2, v3, f, touched, done, pins, dest);
    forall p | 0 <= p < |vs.descs| && p !in rest - done && Tiled(g, vs, p) && UnlessPinned(vs.descs[p], from)
      ensures Tiled(g, v3, p) {
      if p in done {
        assert v1.descs[p] == v0.descs[p] == vs.descs[p];
      } else {
        assert p !in PagesOf(f.Keys);
        assert Tiled(g, v0, p) && Tiled(g, v1, p);
        if v1.descs[p].generation == Free {
          NoFillTiled(g, v2, p);
        } else {
          TiledAfterRewrite(g, v1, v2, f, touched, p);
        }
      }
      TiledAfterReclaim(g, v2, done, pins, dest, p);
    }
  }

  // -- Cards ----------------------------------------------------------------

  /** The cards that are dirty now are those that were and those under what came out of `from` so far. */
  ghost predicate CardedSoFar(g: Geometry, vs: View, phi: map<nat, nat>, from: Generation, rest: set<nat>,
                              before: seq<bool>, after: seq<bool>)
    requires Shaped(g, vs)
  {
    && |before| == |after| && (forall k | 0 <= k < |before| && before[k] :: after[k])
    && (forall s | s in phi && s < |vs.starts| && GenAt(vs, s) == from && s / PAGE_CELLS !in rest ::
          BlockCarded(after, phi[s], SizeOf(g, vs, s)))
    && (forall k | 0 <= k < |before| && after[k] && !before[k] :: CardOwed(g, vs, phi, from, rest, k))
  }

  /** Something that came out of `from` lies on card `k`. */
  ghost predicate CardOwed(g: Geometry, vs: View, phi: map<nat, nat>, from: Generation, rest: set<nat>, k: nat)
    requires Shaped(g, vs)
  {
    exists s :: s in phi && s < |vs.starts| && GenAt(vs, s) == from && s / PAGE_CELLS !in rest
                && CoversCard(phi[s], SizeOf(g, vs, s), k)
  }

  lemma StillCarded(before: seq<bool>, after: seq<bool>, c: nat, n: nat)
    requires |before| == |after| && (forall k | 0 <= k < |before| && before[k] :: after[k]) && BlockCarded(before, c, n)
    ensures BlockCarded(after, c, n)
  {
  }

  lemma CardedChunk(g: Geometry, vs: View, v0: View, v1: View, v2: View, v3: View, phi: map<nat, nat>, live: set<nat>,
                    pins: set<nat>, from: Generation, dest: Generation, rest: set<nat>, f: map<nat, nat>,
                    touched: set<nat>, done: set<nat>, cardsS: seq<bool>, cards0: seq<bool>, cards1: seq<bool>,
                    cards3: seq<bool>)
    requires GeoOk(g) && Placed(g, vs, v0, phi, live, pins, from, dest, rest) && Shaped(g, vs) && Shaped(g, v0)
    requires from != Free
    requires CardedSoFar(g, vs, phi, from, rest, cardsS, cards0) && CopiesCarded(g, v0, f, cards0, cards1)
    requires ChunkStep(g, v0, v1, v2, v3, f, touched, done, pins, dest) && Shaped(g, v1) && Shaped(g, v2)
    requires Shaped(g, v3) && done <= rest
    requires PinsCarded(g, v2, pins, done, cards1, cards3)
    requires ChunkTables(vs, v0, v3, from, dest, rest, done, f)
    requires forall t | t in phi.Values :: Survives(f, done, pins, t) && IsObj(v0, t)
    requires f.Keys <= phi.Values && forall s | s in pins :: s in live
    ensures CardedSoFar(g, vs, Onward(phi, f), from, rest - done, cardsS, cards3)
  {
    hide Placed, ChunkStep, BlockCarded, IsObj, Survives, SizeOf, ChunkTables, PinsCarded, CopiesCarded, CardOwed;
    var r := Onward(phi, f);
    CopiedLength(g, v0, f, cards0, cards1);
    CardsKept(g, v2, pins, done, cards1, cards3);
    forall t | t in phi.Values ensures IsObj(v0, t) {}
    forall k | 0 <= k < |cardsS| && cards3[k] && !cardsS[k] ensures CardOwed(g, vs, r, from, rest - done, k) {
      if cards0[k] {
        StillOwed(g, vs, v0, v3, phi, live, pins, from, dest, rest, done, f, k);
      } else if cards1[k] {
        OwedToCopy(g, vs, v0, v1, v2, v3, phi, live, pins, from, dest, rest, f, touched, done, cards0, cards1, k);
      } else {
        OwedToPin(g, vs, v0, v1, v2, v3, phi, live, pins, from, dest, rest, f, touched, done, cards1, cards3, k);
      }
    }
    forall s | s in r && s < |vs.starts| && GenAt(vs, s) == from && s / PAGE_CELLS !in rest - done
      ensures BlockCarded(cards3, r[s], SizeOf(g, vs, s))
    {
      if s / PAGE_CELLS in rest {
        CardedHere(g, vs, v0, v1, v2, v3, phi, live, pins, from, dest, rest, f, touched, done, cards0, cards1, cards3,
          s);
      } else {
        NotMovedAgain(g, vs, v0, v3, phi, live, pins, from, dest, rest, done, f, s);
        StillCarded(cards0, cards1, phi[s], SizeOf(g, vs, s));
        StillCarded(cards1, cards3, phi[s], SizeOf(g, vs, s));
      }
    }
  }

  lemma CopiedLength(g: Geometry, v0: View, f: map<nat, nat>, before: seq<bool>, after: seq<bool>)
    requires |v0.starts| == |v0.cells| && CopiesCarded(g, v0, f, before, after)
    ensures |before| == |after| && forall k | 0 <= k < |before| && before[k] :: after[k]
  {
  }

  lemma StillOwed(g: Geometry, vs: View, v0: View, v3: View, phi: map<nat, nat>, live: set<nat>, pins: set<nat>,
                  from: Generation, dest: Generation, rest: set<nat>, done: set<nat>, f: map<nat, nat>, k: nat)
    requires Placed(g, vs, v0, phi, live, pins, from, dest, rest) && Shaped(g, vs) && Shaped(g, v0) && done <= rest
    requires |v3.descs| == |vs.descs| && |v3.starts| == |vs.starts|
    requires ChunkTables(vs, v0, v3, from, dest, rest, done, f) && CardOwed(g, vs, phi, from, rest, k)
    ensures CardOwed(g, vs, Onward(phi, f), from, rest - done, k)
  {
    hide Placed, ChunkTables, SizeOf, CoversCard;
    var s :| s in phi && s < |vs.starts| && GenAt(vs, s) == from && s / PAGE_CELLS !in rest
             && CoversCard(phi[s], SizeOf(g, vs, s), k);
    NotMovedAgain(g, vs, v0, v3, phi, live, pins, from, dest, rest, done, f, s);
    assert s in Onward(phi, f) && Onward(phi, f)[s] == phi[s];
  }

  /** An object on the pages of the chunk, at its start. */
  lemma HereAtStart(g: Geometry, vs: View, v0: View, phi: map<nat, nat>, live: set<nat>, pins: set<nat>,
                    from: Generation, dest: Generation, rest: set<nat>, s: nat)
    requires Placed(g, vs, v0, phi, live, pins, from, dest, rest) && s in phi.Values && s / PAGE_CELLS in rest
    ensures s in phi && phi[s] == s && s < |vs.starts| && s / PAGE_CELLS < |vs.descs| && GenAt(vs, s) == from
    ensures |vs.starts| == |vs.cells| && |v0.starts| == |v0.cells| && s < |v0.starts|
    ensures SizeOf(g, v0, s) == SizeOf(g, vs, s)
  {
    hide SameShape, RestKept, LayoutAt;
    var x :| x in phi && phi[x] == s;
    OnRest(g, vs, v0, phi, live, pins, from, dest, rest, x);
    assert InPlace(g, vs, v0, pins, from, dest, rest, s, s);
    ShapeOffsets(g, vs, v0, s, s, 0);
  }

  lemma OwedToCopy(g: Geometry, vs: View, v0: View, v1: View, v2: View, v3: View, phi: map<nat, nat>, live: set<nat>,
                   pins: set<nat>, from: Generation, dest: Generation, rest: set<nat>, f: map<nat, nat>,
                   touched: set<nat>, done: set<nat>, cards0: seq<bool>, cards1: seq<bool>, k: nat)
    requires GeoOk(g) && Placed(g, vs, v0, phi, live, pins, from, dest, rest) && Shaped(g, vs) && Shaped(g, v0)
    requires ChunkStep(g, v0, v1, v2, v3, f, touched, done, pins, dest) && done <= rest && f.Keys <= phi.Values
    requires CopiesCarded(g, v0, f, cards0, cards1) && k < |cards0| && k < |cards1| && cards1[k] && !cards0[k]
    ensures CardOwed(g, vs, Onward(phi, f), from, rest - done, k)
  {
    hide Placed, ChunkStep, SizeOf, CoversCard, Onward, BlockCarded;
    var s :| s in f && s < |v0.starts| && CoversCard(f[s], SizeOf(g, v0, s), k);
    assert s in f.Keys;
    MovedOff(g, v0, v1, v2, v3, f, touched, done, pins, dest, s);
    HereAtStart(g, vs, v0, phi, live, pins, from, dest, rest, s);
    assert Onward(phi, f)[s] == f[s];
  }

  lemma OwedToPin(g: Geometry, vs: View, v0: View, v1: View, v2: View, v3: View, phi: map<nat, nat>, live: set<nat>,
                  pins: set<nat>, from: Generation, dest: Generation, rest: set<nat>, f: map<nat, nat>,
                  touched: set<nat>, done: set<nat>, cards1: seq<bool>, cards3: seq<bool>, k: nat)
    requires GeoOk(g) && Placed(g, vs, v0, phi, live, pins, from, dest, rest) && Shaped(g, vs) && Shaped(g, v0)
    requires ChunkStep(g, v0, v1, v2, v3, f, touched, done, pins, dest) && done <= rest
    requires (forall s | s in pins :: s in live) && Shaped(g, v1) && Shaped(g, v2)
    requires forall t | t in phi.Values :: IsObj(v0, t)
    requires PinsCarded(g, v2, pins, done, cards1, cards3) && k < |cards1| && k < |cards3| && cards3[k] && !cards1[k]
    ensures CardOwed(g, vs, Onward(phi, f), from, rest - done, k)
  {
    hide Placed, ChunkStep, SizeOf, CoversCard, Onward, BlockCarded, IsObj;
    var p :| Reclaims(v2, done, p) && PinCovers(g, v2, pins, p, k);
    var s :| s in pins && s < |v2.starts| && s / PAGE_CELLS == p && CoversCard(s, SizeOf(g, v2, s), k);
    PinWas(g, vs, v0, phi, live, pins, from, dest, rest, s);
    HereAtStart(g, vs, v0, phi, live, pins, from, dest, rest, s);
    PinsNotMoved(g, v0, v1, v2, v3, f, touched, done, pins, dest, s);
    PinnedThen(g, v0, v1, v2, v3, f, touched, done, pins, dest, s);
    assert Onward(phi, f)[s] == s;
  }

  lemma PinWas(g: Geometry, vs: View, v0: View, phi: map<nat, nat>, live: set<nat>, pins: set<nat>, from: Generation,
               dest: Generation, rest: set<nat>, s: nat)
    requires Placed(g, vs, v0, phi, live, pins, from, dest, rest) && s in pins && s in live
    ensures s in phi.Values
  {
    hide SameShape, RestKept;
    assert InPlace(g, vs, v0, pins, from, dest, rest, s, phi[s]);
  }

  lemma PinnedThen(g: Geometry, v0: View, v1: View, v2: View, v3: View, f: map<nat, nat>, touched: set<nat>,
                   done: set<nat>, pins: set<nat>, dest: Generation, s: nat)
    requires GeoOk(g) && ChunkStep(g, v0, v1, v2, v3, f, touched, done, pins, dest) && Shaped(g, v0)
    requires Shaped(g, v1) && Shaped(g, v2) && IsObj(v0, s) && s !in f
    ensures SizeOf(g, v2, s) == SizeOf(g, v0, s)
  {
    hide PinsOk, PinsSolid, ReclaimedView, SizeOf, Copied, HeapOk, PartOk, FwdMap, Rewrote, OnlyRewritable;
    PinnedSize(g, v0, v1, v2, f, touched, dest, s);
  }

  lemma CardsKept(g: Geometry, v2: View, pins: set<nat>, done: set<nat>, cards1: seq<bool>, cards3: seq<bool>)
    requires Shaped(g, v2) && PinsCarded(g, v2, pins, done, cards1, cards3)
    ensures |cards1| == |cards3| && forall k | 0 <= k < |cards1| && cards1[k] :: cards3[k]
  {
  }

  lemma NotMovedAgain(g: Geometry, vs: View, v0: View, v3: View, phi: map<nat, nat>, live: set<nat>, pins: set<nat>,
                      from: Generation, dest: Generation, rest: set<nat>, done: set<nat>, f: map<nat, nat>, s: nat)
    requires Placed(g, vs, v0, phi, live, pins, from, dest, rest) && Shaped(g, vs) && Shaped(g, v0)
    requires |v3.descs| == |vs.descs| && |v3.starts| == |vs.starts|
    requires ChunkTables(vs, v0, v3, from, dest, rest, done, f)
    requires s in phi && s < |vs.starts| && GenAt(vs, s) == from && s / PAGE_CELLS !in rest
    ensures phi[s] !in f
  {
    hide SameShape;
    assert InPlace(g, vs, v0, pins, from, dest, rest, s, phi[s]);
  }

  lemma CardedHere(g: Geometry, vs: View, v0: View, v1: View, v2: View, v3: View, phi: map<nat, nat>, live: set<nat>,
                   pins: set<nat>, from: Generation, dest: Generation, rest: set<nat>, f: map<nat, nat>,
                   touched: set<nat>, done: set<nat>, cards0: seq<bool>, cards1: seq<bool>, cards3: seq<bool>, s: nat)
    requires GeoOk(g) && Placed(g, vs, v0, phi, live, pins, from, dest, rest) && Shaped(g, vs) && Shaped(g, v0)
    requires from != Free
    requires Shaped(g, v1) && Shaped(g, v2) && CopiesCarded(g, v0, f, cards0, cards1)
    requires PinsCarded(g, v2, pins, done, cards1, cards3)
    requires ChunkStep(g, v0, v1, v2, v3, f, touched, done, pins, dest)
    requires s in phi && s < |vs.starts| && GenAt(vs, s) == from && s / PAGE_CELLS in rest && s / PAGE_CELLS in done
    requires Survives(f, done, pins, phi[s]) && IsObj(v0, phi[s])
    ensures BlockCarded(cards3, Onward(phi, f)[s], SizeOf(g, vs, s))
  {
    hide SameShape, BlockCarded, SizeOf, ReclaimedView, LayoutAt;
    assert InPlace(g, vs, v0, pins, from, dest, rest, s, phi[s]);
    ShapeOffsets(g, vs, v0, s, s, 0);
    CardsKept(g, v2, pins, done, cards1, cards3);
    if s in f {
      assert BlockCarded(cards1, f[s], SizeOf(g, v0, s));
      StillCarded(cards1, cards3, f[s], SizeOf(g, vs, s));
    } else {
      PinnedSize(g, v0, v1, v2, f, touched, dest, s) by {
        hide PinsOk, PinsSolid;
      }
      assert Reclaims(v2, done, s / PAGE_CELLS);
    }
  }

  lemma PinnedSize(g: Geometry, v0: View, v1: View, v2: View, f: map<nat, nat>, touched: set<nat>, dest: Generation,
                   s: nat)
    requires GeoOk(g) && Shaped(g, v0) && Shaped(g, v1) && Shaped(g, v2)
    requires HeapOk(g, v0) && PartOk(g, v1) && Copied(g, v0, v1, f, dest) && FwdMap(g, v1, f)
    requires Rewrote(g, f, v1, v2, touched) && OnlyRewritable(g, v1, touched)
    requires IsObj(v0, s) && s !in f
    ensures IsObj(v2, s) && SizeOf(g, v2, s) == SizeOf(g, v0, s)
  {
    hide HeapOk, PartOk, Copied, FwdMap, Rewrote, OnlyRewritable, SameShape;
    PlacedAfterCopy(g, v0, v1, f, dest, s);
    ShapeFit(g, v0, v1, s, s);
    PlacedAfterRewrite(g, v1, v2, f, touched, s);
    ShapeFit(g, v1, v2, s, s);
  }
}
