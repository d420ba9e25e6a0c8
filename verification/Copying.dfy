/** Phase 1 of an evacuation: the marked, unpinned objects of a chunk of pages
    are copied to the destination generation and forwarded. */
module Copying {
  import opened Bits
  import opened Options
  import opened Bitmaps
  import opened Layouts
  import opened Pages
  import opened Objects
  import opened PageHeaps
  import opened Alloc
  import opened Demands
  import opened Cards
  import opened Moves

  // -- One object moved, as a function of the view --------------------------

  /** `n` cells copied from `s` to `c`, then `marker` written at `s`. */
  function Blit(cells: seq<u64>, s: nat, c: nat, n: nat, marker: u64): (r: seq<u64>)
    requires s + n <= |cells|
    ensures |r| == |cells|
  {
    seq(|cells|, i requires 0 <= i < |cells| =>
      if c <= i < c + n then cells[s + (i - c)] else if i == s then marker else cells[i])
  }

  /** `w` is `v` after the object at `s` moved to the block `[c, c + n)` of `dest`. */
  ghost predicate MovedTo(g: Geometry, v: View, mid: View, w: View, dest: Generation, kind: PageKind, s: nat, c: nat,
                          n: nat)
    requires GeoOk(g) && Shaped(g, v)
  {
    && n >= 1 && UsedCell(v, s) && UsedCell(v, s + n - 1) && (s + n - 1) / PAGE_CELLS == s / PAGE_CELLS
    && RoomAt(v, mid, dest, kind, c, n)
    && |mid.starts| == |mid.cells| == |v.cells| && |mid.descs| == |v.descs|
    && (forall t | c <= t < c + n :: mid.starts[t] == NoStart)
    && w == Started(Charged(mid, c, n), c, v.starts[s]).(cells := Blit(mid.cells, s, c, n, Marker(g, c)))
  }

  /** A cell below the fill level of a page that is not Free. */
  predicate UsedCell(v: View, y: nat) {
    && y / PAGE_CELLS < |v.descs| && y < |v.cells| == |v.starts|
    && GenAt(v, y) != Free && y % PAGE_CELLS < v.descs[y / PAGE_CELLS].wordsUsed
  }

  /** The pages already in use keep their descriptors, except that a page of
      `dest` may fill up; Free pages stay Free or become pages of `dest`. */
  ghost predicate DescsGrown(d0: seq<PageDesc>, d1: seq<PageDesc>, dest: Generation) {
    && |d1| == |d0|
    && (forall p | 0 <= p < |d0| && d0[p].generation != Free ::
          d1[p] == d0[p].(wordsUsed := d1[p].wordsUsed) && d1[p].wordsUsed >= d0[p].wordsUsed
          && (d0[p].generation != dest ==> d1[p] == d0[p]))
    && (forall p | 0 <= p < |d0| && d0[p].generation == Free :: d1[p] == d0[p] || Opened(d1[p], dest))
  }

  predicate Opened(d: PageDesc, dest: Generation) {
    d.generation == dest && (d.kind == Cons || d.kind == Boxed) && d.pinByte == 0
  }

  lemma MovedPage(g: Geometry, v: View, mid: View, w: View, dest: Generation, kind: PageKind, s: nat, c: nat, n: nat)
    requires GeoOk(g) && Shaped(g, v) && MovedTo(g, v, mid, w, dest, kind, s, c, n) && HasRegion(dest, kind)
    ensures Shaped(g, w) && DescsGrown(v.descs, w.descs, dest)
    ensures forall p | 0 <= p < |v.descs| && p != c / PAGE_CELLS :: w.descs[p] == v.descs[p]
  {
  }

  /** Cells in use keep their start, and all but `s` keep their word. */
  lemma UsedKept(g: Geometry, v: View, mid: View, w: View, dest: Generation, kind: PageKind, s: nat, c: nat, n: nat,
                 y: nat)
    requires GeoOk(g) && Shaped(g, v) && MovedTo(g, v, mid, w, dest, kind, s, c, n) && HasRegion(dest, kind)
    requires UsedCell(v, y)
    ensures UsedCell(w, y) && GenAt(w, y) == GenAt(v, y)
    ensures w.starts[y] == v.starts[y]
    ensures w.cells[y] == if y == s then Marker(g, c) else v.cells[y]
  {
    if y / PAGE_CELLS == c / PAGE_CELLS {
      assert mid == v;
      assert y < c;
    }
    assert c % PAGE_CELLS + n <= PAGE_CELLS;
    assert mid.cells[y] == v.cells[y];
  }

  /** The block holds the words of the object. */
  lemma BlockFilled(g: Geometry, v: View, mid: View, w: View, dest: Generation, kind: PageKind, s: nat, c: nat, n: nat)
    requires GeoOk(g) && Shaped(g, v) && MovedTo(g, v, mid, w, dest, kind, s, c, n) && HasRegion(dest, kind)
    requires v.starts[s] != NoStart
    ensures c + n <= |w.cells| && IsObj(w, c) && GenAt(w, c) == dest && w.starts[c] == v.starts[s]
    ensures forall i | 0 <= i < n :: Field(w, c, i) == Field(v, s, i)
    ensures forall t | c < t < c + n :: w.starts[t] == NoStart
    ensures w.descs[c / PAGE_CELLS].wordsUsed == c % PAGE_CELLS + n
    ensures !UsedCell(v, c)
  {
    forall i | 0 <= i < n ensures Field(w, c, i) == Field(v, s, i) {
      assert (s + i) / PAGE_CELLS == s / PAGE_CELLS;
      assert w.cells[c + i] == mid.cells[s + i];
    }
  }

  /** Nothing but the copy appears. */
  lemma NothingElse(g: Geometry, v: View, mid: View, w: View, dest: Generation, kind: PageKind, s: nat, c: nat, n: nat,
                    x: nat)
    requires GeoOk(g) && Shaped(g, v) && MovedTo(g, v, mid, w, dest, kind, s, c, n) && HasRegion(dest, kind)
    requires IsObj(w, x) && x != c
    ensures IsObj(v, x) && w.starts[x] == v.starts[x]
  {
  }

  // -- A whole chunk --------------------------------------------------------

  /** The object at `s` of `v0` lies in `v` with the same start, generation and words. */
  ghost predicate Kept(g: Geometry, v0: View, v: View, s: nat)
    requires s < |v0.starts| == |v0.cells|
  {
    && IsObj(v, s) && s < |v.cells| && v.starts[s] == v0.starts[s]
    && s / PAGE_CELLS < |v0.descs| && GenAt(v, s) == GenAt(v0, s)
    && s + SizeOf(g, v0, s) <= |v0.cells| == |v.cells|
    && forall i | 0 <= i < SizeOf(g, v0, s) :: Field(v, s, i) == Field(v0, s, i)
  }

  /** The cell at `t` of `v` starts a copy, in `dest`, of the object at `s` of `v0`. */
  ghost predicate CopyAt(g: Geometry, v0: View, v: View, s: nat, t: nat, dest: Generation)
    requires s < |v0.starts| == |v0.cells|
  {
    && IsObj(v, t) && t < |v.cells| && v.starts[t] == v0.starts[s] && GenAt(v, t) == dest
    && s + SizeOf(g, v0, s) <= |v0.cells| && t + SizeOf(g, v0, s) <= |v.cells|
    && forall i | 0 <= i < SizeOf(g, v0, s) :: Field(v, t, i) == Field(v0, s, i)
  }

  ghost predicate Injective(f: map<nat, nat>) {
    forall s, t | s in f && t in f && s != t :: f[s] != f[t]
  }

  /** From `v0` to `v`, exactly the objects of `f` were copied and forwarded; all
      other objects stayed as they were and no other object appeared. */
  ghost predicate Copied(g: Geometry, v0: View, v: View, f: map<nat, nat>, dest: Generation)
    requires GeoOk(g)
  {
    && Shaped(g, v0) && Shaped(g, v) && InRange(g, f) && Injective(f)
    && (forall s | s in f ::
          IsObj(v0, s) && !IsObj(v0, f[s]) && IsObj(v, s) && v.starts[s] == v0.starts[s]
              && v.cells[s] == Marker(g, f[s])
          && CopyAt(g, v0, v, s, f[s], dest))
    && (forall s: nat | s < |v0.starts| && IsObj(v0, s) && s !in f :: Kept(g, v0, v, s))
    && (forall x: nat | x < |v.starts| && IsObj(v, x) :: IsObj(v0, x) || x in f.Values)
  }

  lemma NothingCopied(g: Geometry, v: View, dest: Generation)
    requires GeoOk(g) && Shaped(g, v)
    requires forall s: nat | s < |v.starts| && IsObj(v, s) :: s + SizeOf(g, v, s) <= |v.cells|
    ensures Copied(g, v, v, map[], dest)
  {
  }

  /** Object starts lie below the fill level of their page. */
  ghost predicate StartsUsed(v: View) {
    forall x: nat | x < |v.starts| && IsObj(v, x) :: UsedCell(v, x)
  }

  /** An object that is not forwarded lies on cells in use. */
  lemma ExtentUsed(g: Geometry, v: View, x: nat, i: nat)
    requires PartOk(g, v) && IsObj(v, x) && !IsMarker(g, v.cells[x]) && i < SizeOf(g, v, x)
    ensures UsedCell(v, x + i) && (x + i) / PAGE_CELLS == x / PAGE_CELLS
  {
    assert ObjOk(g, v, x);
    ExtentOwner(g, v, x, i);
  }

  /** An object other than the one that moves is untouched. */
  lemma OtherKept(g: Geometry, v: View, mid: View, w: View, dest: Generation, kind: PageKind, s: nat, c: nat, n: nat,
                  x: nat)
    requires GeoOk(g) && PartOk(g, v) && MovedTo(g, v, mid, w, dest, kind, s, c, n) && HasRegion(dest, kind)
    requires IsObj(v, s) && !IsMarker(g, v.cells[s]) && n == SizeOf(g, v, s)
    requires IsObj(v, x) && x != s && !IsMarker(g, v.cells[x])
    ensures Kept(g, v, w, x) && w.descs[x / PAGE_CELLS].wordsUsed >= v.descs[x / PAGE_CELLS].wordsUsed
    ensures forall t | x < t < x + SizeOf(g, v, x) && t < |w.starts| :: w.starts[t] == NoStart
  {
    assert ObjOk(g, v, x);
    MovedPage(g, v, mid, w, dest, kind, s, c, n);
    assert DescsGrown(v.descs, w.descs, dest) && v.descs[x / PAGE_CELLS].generation != Free;
    forall t | x <= t < x + SizeOf(g, v, x)
      ensures t < |w.cells| && w.cells[t] == v.cells[t] && w.starts[t] == v.starts[t] && GenAt(w, t) == GenAt(v, t)
    {
      ExtentUsed(g, v, x, t - x);
      UsedKept(g, v, mid, w, dest, kind, s, c, n, t);
      ExtentOwner(g, v, x, t - x);
      if t == s { OwnerIs(v.starts, s, s); }
    }
    forall i | 0 <= i < SizeOf(g, v, x) ensures Field(w, x, i) == Field(v, x, i) {
      assert w.cells[x + i] == v.cells[x + i];
    }
  }

  lemma KeptOk(g: Geometry, v: View, w: View, x: nat)
    requires Shaped(g, v) && Shaped(g, w) && IsObj(v, x) && ObjOk(g, v, x) && Kept(g, v, w, x)
    requires v.descs[x / PAGE_CELLS].wordsUsed <= w.descs[x / PAGE_CELLS].wordsUsed <= PAGE_CELLS
    requires forall t | x < t < x + SizeOf(g, v, x) && t < |w.starts| :: w.starts[t] == NoStart
    ensures ObjOk(g, w, x)
  {
    assert Field(w, x, 0) == Field(v, x, 0);
  }

  lemma CopyOk(g: Geometry, v: View, mid: View, w: View, dest: Generation, kind: PageKind, s: nat, c: nat, n: nat)
    requires GeoOk(g) && PartOk(g, v) && MovedTo(g, v, mid, w, dest, kind, s, c, n) && HasRegion(dest, kind)
    requires IsObj(v, s) && !IsMarker(g, v.cells[s]) && n == SizeOf(g, v, s)
    requires Shaped(g, w)
    ensures ObjOk(g, w, c) && CopyAt(g, v, w, s, c, dest) && !IsObj(v, c)
  {
    BlockFilled(g, v, mid, w, dest, kind, s, c, n);
    assert ObjOk(g, v, s);
    assert Field(w, c, 0) == Field(v, s, 0);
    assert RoomAt(v, mid, dest, kind, c, n);
    assert s + n <= |v.cells| by { ExtentUsed(g, v, s, n - 1); }
    assert c + n <= |w.cells|;
    assert v.starts[c] == NoStart || GenAt(v, c) == Free by {
      if mid == v { assert mid.starts[c] == NoStart; }
    }
  }

  /** The heap stays well-formed when an object moves. */
  lemma MovedOk(g: Geometry, v: View, mid: View, w: View, dest: Generation, kind: PageKind, s: nat, c: nat, n: nat)
    requires GeoOk(g) && PartOk(g, v) && MovedTo(g, v, mid, w, dest, kind, s, c, n) && HasRegion(dest, kind)
    requires IsObj(v, s) && !IsMarker(g, v.cells[s]) && n == SizeOf(g, v, s) && StartsUsed(v)
    requires forall p | 0 <= p < |v.descs| :: v.descs[p].wordsUsed <= PAGE_CELLS
    ensures PartOk(g, w)
  {
    hide MovedTo, ObjOk, UsedCell, Kept, CopyAt;
    MovedPage(g, v, mid, w, dest, kind, s, c, n);
    CopyOk(g, v, mid, w, dest, kind, s, c, n);
    forall x: nat | x < |w.starts| && IsObj(w, x) && !IsMarker(g, w.cells[x]) ensures ObjOk(g, w, x) {
      if x != c {
        NothingElse(g, v, mid, w, dest, kind, s, c, n, x);
        UsedKept(g, v, mid, w, dest, kind, s, c, n, x);
        MarkerLaw(g, c) by { BlockRoom(g, v, mid, w, dest, kind, s, c, n); }
        OtherKept(g, v, mid, w, dest, kind, s, c, n, x);
        FillBound(g, v, mid, w, dest, kind, s, c, n, x / PAGE_CELLS);
        KeptOk(g, v, w, x);
      }
    }
    forall x: nat | x < |w.starts| && IsObj(w, x) && w.starts[x] == ConsStart ensures Whole(g, w, x) {
      if x == c {
        WholeIfOk(g, w, x);
      } else {
        ConsStillWhole(g, v, mid, w, dest, kind, s, c, n, x);
      }
    }
  }

  lemma WholeIfOk(g: Geometry, v: View, x: nat)
    requires Shaped(g, v) && x < |v.starts| && ObjOk(g, v, x)
    ensures Whole(g, v, x)
  {
  }

  /** A cons stays whole, forwarded or not. */
  lemma ConsStillWhole(g: Geometry, v: View, mid: View, w: View, dest: Generation, kind: PageKind, s: nat, c: nat,
                       n: nat, x: nat)
    requires GeoOk(g) && PartOk(g, v) && MovedTo(g, v, mid, w, dest, kind, s, c, n) && HasRegion(dest, kind)
    requires Shaped(g, w)
    requires forall p | 0 <= p < |v.descs| :: v.descs[p].wordsUsed <= PAGE_CELLS
    requires IsObj(w, x) && w.starts[x] == ConsStart && x != c
    ensures Whole(g, w, x)
  {
    hide MovedTo, Blit;
    NothingElse(g, v, mid, w, dest, kind, s, c, n, x);
    assert Whole(g, v, x);
    ExtentOwner(g, v, x, 1);
    MovedPage(g, v, mid, w, dest, kind, s, c, n);
    FillBound(g, v, mid, w, dest, kind, s, c, n, x / PAGE_CELLS);
    UsedKept(g, v, mid, w, dest, kind, s, c, n, x + 1);
  }

  lemma BlockRoom(g: Geometry, v: View, mid: View, w: View, dest: Generation, kind: PageKind, s: nat, c: nat, n: nat)
    requires GeoOk(g) && Shaped(g, v) && MovedTo(g, v, mid, w, dest, kind, s, c, n)
    ensures c < PAGE_CELLS * g.nPages && 1 <= n && c % PAGE_CELLS + n <= PAGE_CELLS && c / PAGE_CELLS < |v.descs|
  {
  }

  lemma FillBound(g: Geometry, v: View, mid: View, w: View, dest: Generation, kind: PageKind, s: nat, c: nat, n: nat,
                  p: nat)
    requires GeoOk(g) && Shaped(g, v) && MovedTo(g, v, mid, w, dest, kind, s, c, n) && p < |v.descs| == |w.descs|
    requires v.descs[p].wordsUsed <= PAGE_CELLS
    ensures w.descs[p].wordsUsed <= PAGE_CELLS
  {
  }

  /** One more object copied. */
  lemma CopiedStep(g: Geometry, v0: View, f: map<nat, nat>, v: View, mid: View, w: View, dest: Generation,
                   kind: PageKind, s: nat, c: nat, n: nat)
    requires GeoOk(g) && HeapOk(g, v0) && PartOk(g, v) && StartsUsed(v) && Copied(g, v0, v, f, dest)
    requires MovedTo(g, v, mid, w, dest, kind, s, c, n) && HasRegion(dest, kind)
    requires IsObj(v0, s) && s !in f && n == SizeOf(g, v0, s)
    ensures Copied(g, v0, w, f[s := c], dest)
  {
    hide MovedTo, ObjOk, UsedCell, Kept, CopyAt, StartsUsed, LayoutAt, SizeOf;
    MovedPage(g, v, mid, w, dest, kind, s, c, n);
    BlockRoom(g, v, mid, w, dest, kind, s, c, n);
    assert s + 0 == s;
    KeptSame(g, v0, v, s);
    CopyOk(g, v, mid, w, dest, kind, s, c, n);
    var f' := f[s := c];
    forall t | t in f'
      ensures IsObj(v0, t) && !IsObj(v0, f'[t]) && IsObj(w, t) && w.starts[t] == v0.starts[t]
      ensures w.cells[t] == Marker(g, f'[t])
      ensures CopyAt(g, v0, w, t, f'[t], dest) && (t != s ==> f'[t] != c)
    {
      if t == s {
        CopiedFirst(g, v0, f, v, mid, w, dest, kind, s, c, n);
      } else {
        CopiedStays(g, v0, f, v, mid, w, dest, kind, s, c, n, t);
      }
    }
    OthersKept(g, v0, f, v, mid, w, dest, kind, s, c, n);
    NoStrangers(g, v0, f, v, mid, w, dest, kind, s, c, n);
    hide Copied;
    MakeCopied(g, v0, v, w, f, f', s, c, dest);
  }

  lemma MakeCopied(g: Geometry, v0: View, v: View, w: View, f: map<nat, nat>, f': map<nat, nat>, s: nat, c: nat,
                   dest: Generation)
    requires GeoOk(g) && Copied(g, v0, v, f, dest) && Shaped(g, w) && c < PAGE_CELLS * g.nPages && s !in f
    requires f' == f[s := c]
    requires forall t | t in f' ::
               && IsObj(v0, t) && !IsObj(v0, f'[t]) && IsObj(w, t) && w.starts[t] == v0.starts[t]
                     && w.cells[t] == Marker(g, f'[t])
               && CopyAt(g, v0, w, t, f'[t], dest) && (t != s ==> f'[t] != c)
    requires forall x: nat | x < |v0.starts| && IsObj(v0, x) && x !in f' :: Kept(g, v0, w, x)
    requires forall x: nat | x < |w.starts| && IsObj(w, x) :: IsObj(v0, x) || x in f'.Values
    ensures Copied(g, v0, w, f', dest)
  {
    hide Kept, CopyAt, IsObj;
  }

  lemma OthersKept(g: Geometry, v0: View, f: map<nat, nat>, v: View, mid: View, w: View, dest: Generation,
                   kind: PageKind, s: nat, c: nat, n: nat)
    requires GeoOk(g) && HeapOk(g, v0) && PartOk(g, v) && Copied(g, v0, v, f, dest)
    requires MovedTo(g, v, mid, w, dest, kind, s, c, n) && HasRegion(dest, kind)
    requires IsObj(v, s) && !IsMarker(g, v.cells[s]) && n == SizeOf(g, v, s)
    ensures forall x: nat | x < |v0.starts| && IsObj(v0, x) && x !in f && x != s :: Kept(g, v0, w, x)
  {
    hide MovedTo, ObjOk, UsedCell, Kept, CopyAt, LayoutAt, SizeOf;
    forall x: nat | x < |v0.starts| && IsObj(v0, x) && x !in f && x != s ensures Kept(g, v0, w, x) {
      KeptSame(g, v0, v, x);
      OtherKept(g, v, mid, w, dest, kind, s, c, n, x);
      KeptTrans(g, v0, v, w, x);
    }
  }

  /** The object just copied. */
  lemma CopiedFirst(g: Geometry, v0: View, f: map<nat, nat>, v: View, mid: View, w: View, dest: Generation,
                    kind: PageKind, s: nat, c: nat, n: nat)
    requires GeoOk(g) && PartOk(g, v) && StartsUsed(v) && Copied(g, v0, v, f, dest)
    requires MovedTo(g, v, mid, w, dest, kind, s, c, n) && HasRegion(dest, kind)
    requires IsObj(v0, s) && s !in f && n == SizeOf(g, v0, s)
    requires Kept(g, v0, v, s) && CopyAt(g, v, w, s, c, dest) && !IsObj(v, c) && IsObj(v, s)
    requires SizeOf(g, v, s) == SizeOf(g, v0, s)
    ensures !IsObj(v0, c) && IsObj(w, s) && w.starts[s] == v0.starts[s] && w.cells[s] == Marker(g, c)
    ensures CopyAt(g, v0, w, s, c, dest)
  {
    hide MovedTo, ObjOk, UsedCell, StartsUsed, LayoutAt, SizeOf;
    CopyOfKept(g, v0, v, w, s, c, dest);
    NotYetObj(g, v0, v, f, dest, c);
    StartUsed(v, s);
    UsedKept(g, v, mid, w, dest, kind, s, c, n, s);
  }

  /** Every object is one from before the phase or a copy. */
  lemma NoStrangers(g: Geometry, v0: View, f: map<nat, nat>, v: View, mid: View, w: View, dest: Generation,
                    kind: PageKind, s: nat, c: nat, n: nat)
    requires GeoOk(g) && StartsUsed(v) && Copied(g, v0, v, f, dest)
    requires MovedTo(g, v, mid, w, dest, kind, s, c, n) && HasRegion(dest, kind) && s !in f
    ensures forall x: nat | x < |w.starts| && IsObj(w, x) :: IsObj(v0, x) || x in f[s := c].Values
  {
    hide MovedTo, ObjOk, UsedCell, Kept, CopyAt, StartsUsed;
    var f' := f[s := c];
    forall x: nat | x < |w.starts| && IsObj(w, x) ensures IsObj(v0, x) || x in f'.Values {
      if x == c {
        assert f'[s] == c && s in f'.Keys;
      } else {
        NothingElse(g, v, mid, w, dest, kind, s, c, n, x);
        if x in f.Values {
          var t :| t in f && f[t] == x;
          assert t != s && f'[t] == x;
        }
      }
    }
  }

  lemma StartUsed(v: View, x: nat)
    requires StartsUsed(v) && IsObj(v, x)
    ensures UsedCell(v, x)
  {
  }

  lemma NotYetObj(g: Geometry, v0: View, v: View, f: map<nat, nat>, dest: Generation, c: nat)
    requires GeoOk(g) && Copied(g, v0, v, f, dest) && !IsObj(v, c)
    ensures !IsObj(v0, c)
  {
    assert forall x: nat | x < |v0.starts| && IsObj(v0, x) && x !in f :: IsObj(v, x);
  }

  lemma KeptSame(g: Geometry, v0: View, v: View, s: nat)
    requires HeapOk(g, v0) && IsObj(v0, s) && Kept(g, v0, v, s)
    ensures IsObj(v, s) && v.cells[s] == v0.cells[s] && LayoutAt(g, v, s) == LayoutAt(g, v0, s)
    ensures SizeOf(g, v, s) == SizeOf(g, v0, s) && !IsMarker(g, v.cells[s])
  {
    assert ObjOk(g, v0, s);
    assert Field(v, s, 0) == Field(v0, s, 0);
  }

  lemma KeptTrans(g: Geometry, v0: View, v: View, w: View, s: nat)
    requires s < |v0.starts| == |v0.cells| && Kept(g, v0, v, s) && |v.starts| == |v.cells| && Kept(g, v, w, s)
    requires SizeOf(g, v, s) == SizeOf(g, v0, s)
    ensures Kept(g, v0, w, s)
  {
    forall i | 0 <= i < SizeOf(g, v0, s) ensures Field(w, s, i) == Field(v0, s, i) {
      assert Field(v, s, i) == Field(v0, s, i);
    }
  }

  lemma CopyOfKept(g: Geometry, v0: View, v: View, w: View, s: nat, c: nat, dest: Generation)
    requires s < |v0.starts| == |v0.cells| && Kept(g, v0, v, s) && |v.starts| == |v.cells|
    requires CopyAt(g, v, w, s, c, dest)
    requires SizeOf(g, v, s) == SizeOf(g, v0, s)
    ensures CopyAt(g, v0, w, s, c, dest)
  {
    forall i | 0 <= i < SizeOf(g, v0, s) ensures Field(w, c, i) == Field(v0, s, i) {
      assert Field(v, s, i) == Field(v0, s, i);
    }
  }

  lemma KeptOfCopy(g: Geometry, v0: View, v: View, w: View, s: nat, t: nat, dest: Generation)
    requires s < |v0.starts| == |v0.cells| && CopyAt(g, v0, v, s, t, dest) && |v.starts| == |v.cells|
    requires Kept(g, v, w, t)
    requires SizeOf(g, v, t) == SizeOf(g, v0, s)
    ensures CopyAt(g, v0, w, s, t, dest)
  {
    forall i | 0 <= i < SizeOf(g, v0, s) ensures Field(w, t, i) == Field(v0, s, i) {
      assert Field(v, t, i) == Field(v0, s, i);
    }
  }

  lemma CopySame(g: Geometry, v0: View, v: View, s: nat, t: nat, dest: Generation)
    requires HeapOk(g, v0) && IsObj(v0, s) && CopyAt(g, v0, v, s, t, dest) && |v.starts| == |v.cells|
    ensures IsObj(v, t) && v.cells[t] == v0.cells[s] && SizeOf(g, v, t) == SizeOf(g, v0, s) && !IsMarker(g, v.cells[t])
    ensures LayoutAt(g, v, t) == LayoutAt(g, v0, s)
  {
    assert ObjOk(g, v0, s);
    assert Field(v, t, 0) == Field(v0, s, 0);
  }

  /** A copy made earlier, and its marker, survive the next move. */
  lemma CopiedStays(g: Geometry, v0: View, f: map<nat, nat>, v: View, mid: View, w: View, dest: Generation,
                    kind: PageKind, s: nat, c: nat, n: nat, t: nat)
    requires GeoOk(g) && HeapOk(g, v0) && PartOk(g, v) && StartsUsed(v) && Copied(g, v0, v, f, dest)
    requires MovedTo(g, v, mid, w, dest, kind, s, c, n) && HasRegion(dest, kind)
    requires IsObj(v, s) && !IsMarker(g, v.cells[s]) && n == SizeOf(g, v, s) && IsObj(v0, s)
    requires t in f && t != s
    ensures IsObj(w, t) && w.starts[t] == v.starts[t] && w.cells[t] == Marker(g, f[t])
    ensures CopyAt(g, v0, w, t, f[t], dest) && f[t] != c
  {
    hide MovedTo, ObjOk, Kept, CopyAt, StartsUsed, LayoutAt, SizeOf, UsedCell;
    assert IsObj(v0, t) && CopyAt(g, v0, v, t, f[t], dest);
    StartUsed(v, t);
    UsedKept(g, v, mid, w, dest, kind, s, c, n, t);
    MovedObj(v, w, t);
    CopySame(g, v0, v, t, f[t], dest);
    assert f[t] != s;
    OtherKept(g, v, mid, w, dest, kind, s, c, n, f[t]);
    KeptOfCopy(g, v0, v, w, t, f[t], dest);
    CopyOk(g, v, mid, w, dest, kind, s, c, n) by { MovedPage(g, v, mid, w, dest, kind, s, c, n); }
  }

  lemma MovedObj(v: View, w: View, t: nat)
    requires IsObj(v, t) && UsedCell(w, t) && w.starts[t] == v.starts[t]
    ensures IsObj(w, t)
  {
  }

  /** After Phase 1 the markers of the heap are exactly those of `f`. */
  lemma CopiedForwards(g: Geometry, v0: View, v: View, f: map<nat, nat>, dest: Generation)
    requires GeoOk(g) && HeapOk(g, v0) && Copied(g, v0, v, f, dest)
    ensures FwdMap(g, v, f)
  {
    hide Kept, CopyAt, ObjOk;
    forall x: nat | x < |v.starts| && IsObj(v, x) && IsMarker(g, v.cells[x]) ensures x in f {
      if x in f.Values {
        var s :| s in f && f[s] == x;
        CopySame(g, v0, v, s, x, dest);
      } else if x !in f {
        KeptSame(g, v0, v, x);
      }
    }
    forall x | x in f.Values ensures x !in f.Keys {
      var s :| s in f && f[s] == x;
    }
  }

  // -- Phase 1 --------------------------------------------------------------

  /** Pages in use that no region has open: allocation cannot touch them. */
  ghost predicate Sealed(descs: seq<PageDesc>, regions: seq<AllocRegion>, closed: set<nat>)
    requires |regions| == 6
  {
    && (forall p | p in closed :: p < |descs| && descs[p].generation != Free)
    && (forall i | 0 <= i < 6 && regions[i].currentPage.Some? :: regions[i].currentPage.value !in closed)
  }

  lemma RoomEmpty(v: View, committed: seq<bool>, mid: View, dest: Generation, kind: PageKind, c: nat, n: nat)
    requires MemoryOk(v, committed) && RoomAt(v, mid, dest, kind, c, n) && HasRegion(dest, kind)
    ensures c + n <= |v.cells| && |mid.starts| == |mid.cells| == |v.cells| && |mid.descs| == |v.descs|
    ensures forall t | c <= t < c + n :: mid.starts[t] == NoStart
    ensures forall t | c <= t < c + n :: !UsedCell(v, t)
  {
    forall t | c <= t < c + n ensures t / PAGE_CELLS == c / PAGE_CELLS && t % PAGE_CELLS >= c % PAGE_CELLS {
    }
    if mid == v {
      forall t | c <= t < c + n ensures mid.starts[t] == NoStart {
        NoStartAtFill(v, committed, t);
      }
    }
  }

  /** `copy_nonoverlapping`, then the forwarding marker. */
  method CopyCells(h: PageHeap, s: nat, c: nat, n: nat)
    requires h.Valid() && 1 <= n && s + n <= h.cells.Length && c + n <= h.cells.Length
    requires s + n <= c || c + n <= s
    modifies h.cells
    ensures h.V() == old(h.V()).(cells := Blit(old(h.V()).cells, s, c, n, Marker(h.Geo(), c)))
  {
    hide Starts, Lawful, GeoOk;
    for i := 0 to n
      invariant forall j | 0 <= j < h.cells.Length ::
        h.cells[j] == if c <= j < c + i then old(h.cells[s + (j - c)]) else old(h.cells[j])
    {
      h.cells[c + i] := h.cells[s + i];
    }
    h.cells[s] := h.layout.makeForward(AddrOf(h.Geo(), c));
    assert h.cells[..] == Blit(old(h.cells[..]), s, c, n, Marker(h.Geo(), c));
  }

  /** Every card of the block `[c, c + n)` becomes dirty. */
  method MarkCards(h: PageHeap, c: nat, n: nat)
    requires h.Valid() && 1 <= n && c + n <= h.cells.Length
    modifies h.cards
    ensures forall k | 0 <= k < h.cards.Length ::
              h.cards[k] == (old(h.cards[k]) || c / CARD_CELLS <= k <= (c + n - 1) / CARD_CELLS)
  {
    var x := c;
    while x < c + n
      invariant c <= x && (x > c ==> x % CARD_CELLS == 0)
      invariant forall k | 0 <= k < h.cards.Length ::
        h.cards[k] == (old(h.cards[k]) || (x > c && c / CARD_CELLS <= k < x / CARD_CELLS))
      invariant x > c ==> x / CARD_CELLS <= (c + n - 1) / CARD_CELLS + 1
    {
      h.MarkCard(x);
      x := (x / CARD_CELLS + 1) * CARD_CELLS;
    }
  }

  /** The cards that are dirty now are those that were and those under the blocks of `f`. */
  ghost predicate CopiesCarded(g: Geometry, v0: View, f: map<nat, nat>, before: seq<bool>, after: seq<bool>)
    requires |v0.starts| == |v0.cells|
  {
    && |before| == |after|
    && (forall k | 0 <= k < |before| && before[k] :: after[k])
    && (forall s | s in f && s < |v0.starts| :: BlockCarded(after, f[s], SizeOf(g, v0, s)))
    && (forall k | 0 <= k < |before| && after[k] && !before[k] ::
          exists s :: s in f && s < |v0.starts| && CoversCard(f[s], SizeOf(g, v0, s), k))
  }

  /** Card `k` has cells of the block `[c, c + n)` on it. */
  predicate CoversCard(c: nat, n: nat, k: nat) { c / CARD_CELLS <= k <= (c + n - 1) / CARD_CELLS }

  predicate BlockCarded(cards: seq<bool>, c: nat, n: nat) {
    forall k | c / CARD_CELLS <= k <= (c + n - 1) / CARD_CELLS && k < |cards| :: cards[k]
  }

  /** From `before` to `after` exactly the cards of the block became dirty. */
  predicate CardsMarked(before: seq<bool>, after: seq<bool>, c: nat, n: nat) {
    |after| == |before| && forall k | 0 <= k < |before| :: after[k] == (before[k] || CoversCard(c, n, k))
  }

  /** Allocation leaves sealed pages alone. */
  lemma StillSealed(v: View, mid: View, dest: Generation, kind: PageKind, c: nat, n: nat, r0: seq<AllocRegion>,
                    descs: seq<PageDesc>, closed: set<nat>)
    requires |r0| == 6 && Sealed(v.descs, r0, closed) && RoomAt(v, mid, dest, kind, c, n) && HasRegion(dest, kind)
    requires mid == v ==> r0[RegionIndex(dest, kind)].currentPage == Some(c / PAGE_CELLS)
    requires |descs| == |v.descs| && forall p | 0 <= p < |descs| && p != c / PAGE_CELLS :: descs[p] == v.descs[p]
    ensures c / PAGE_CELLS !in closed
    ensures Sealed(descs, r0[RegionIndex(dest, kind) := AllocRegion(Some(c / PAGE_CELLS), c % PAGE_CELLS + n)], closed)
  {
  }

  lemma BlitOk(g: Geometry, v: View, committed: seq<bool>, v1: View, w: View, s: nat, c: nat, n: nat, marker: u64)
    requires MemoryOk(v1, committed) && s + n <= |v1.cells| && w == v1.(cells := Blit(v1.cells, s, c, n, marker))
    requires UsedCell(v1, s) && forall t | c <= t < c + n && t < |v1.cells| :: UsedCell(v1, t)
    ensures MemoryOk(w, committed)
  {
    forall x | 0 <= x < |w.cells| ensures CellZeroIfUnused(w, committed, x) {
      assert CellZeroIfUnused(v1, committed, x);
      if c <= x < c + n { assert UsedCell(v1, x); }
    }
  }

  /** Copies the object at `s` to `dest` and forwards it; `None` is the failed
      allocation that ends the collection. */
  method CopyObject(h: PageHeap, s: nat, isCons: bool, n: nat, dest: Generation, ghost closed: set<nat>)
    returns (r: Option<nat>, ghost mid: View)
    requires h.Inv() && HasRegion(dest, Cons) && PartOk(h.Geo(), h.V())
    requires IsObj(h.V(), s) && !IsMarker(h.Geo(), h.V().cells[s]) && n == SizeOf(h.Geo(), h.V(), s)
    requires isCons == (h.V().starts[s] == ConsStart)
    requires Sealed(h.descs, h.regions, closed)
    modifies h`descs, h`regions, h`bytesAlloc, h`committed, h`freeList, h`highWater, h.cells, h.startTable.bits, h.cards
    ensures h.Valid()
    ensures r.Some? ==> h.Inv() && Sealed(h.descs, h.regions, closed) && r.value / PAGE_CELLS !in closed
    ensures r.Some? ==> MovedTo(h.Geo(), old(h.V()), mid, h.V(), dest, if isCons then Cons else Boxed, s, r.value, n)
    ensures r.Some? ==> r.value + n <= h.cells.Length && CardsMarked(old(h.cards[..]), h.cards[..], r.value, n)
    ensures r.Some? ==>
        RegionStep(old(h.V()), old(h.regions), old(h.freeList), mid, h.regions, h.freeList, dest, isCons, r.value, n)
    ensures r.None? ==>
              h.descs == old(h.descs) && h.regions == old(h.regions) && (Blocked(h, dest) || NoFreePage(h.descs))
    ensures r.None? ==> h.poisoned || NoRoom(h.regions, dest, isCons, n)
  {
    hide CardsMarked, Starts, Lawful, GeoOk, MemoryOk, PagesOk, RegionsOk, RoomAt, CellZeroIfUnused, BumpedAt,
      WellPaired, MovedTo, UsedCell, Sealed, Blit, PartOk, RegionStep, CardsClean, Popped, NoRoom;
    ghost var v, committed0, r0, free0 := h.V(), h.committed, h.regions, h.freeList;
    var kind := if isCons then Cons else Boxed;
    ObjFits(h.Geo(), v, s, n);
    r, mid := TryAllocInRegion(h, dest, kind, n, isCons);
    if r.None? {
      RoomLacks(h.regions, dest, isCons, n);
      return;
    }
    var c := r.value;
    ghost var v1 := h.V();
    BumpStep(v, r0, free0, mid, v1, h.regions, h.freeList, dest, isCons, c, n,
      if isCons then ConsStart else HeaderStart);
    BumpFacts(h.Geo(), v, committed0, mid, v1, dest, kind, s, c, n, if isCons then ConsStart else HeaderStart);
    BumpSealed(v, mid, v1, dest, kind, c, n, v.starts[s], r0, closed);
    CopyCells(h, s, c, n);
    MovedByCopy(h.Geo(), v, committed0, mid, v1, h.V(), dest, kind, s, c, n);
    BlitOk(h.Geo(), v, h.committed, v1, h.V(), s, c, n, Marker(h.Geo(), c));
    ghost var cards := h.cards[..];
    MarkCards(h, c, n);
    BlockClean(h.Geo(), v, mid, v1, dest, kind, c, n, v.starts[s], h.committed, h.freeList, h.highWater, cards,
      h.cards[..]);
  }

  lemma BlockClean(g: Geometry, v: View, mid: View, v1: View, dest: Generation, kind: PageKind, c: nat, n: nat,
                   st: Start, committed: seq<bool>, freeList: seq<nat>, highWater: nat, cards: seq<bool>,
                   cards': seq<bool>)
    requires BumpedAt(v, mid, v1, dest, kind, c, n, st) && HasRegion(dest, kind)
    requires |v1.descs| == |committed| && PagesOk(v1.descs, committed, freeList, highWater)
    requires CardsClean(cards, highWater)
    requires |cards'| == |cards|
    requires forall k | 0 <= k < |cards| :: cards'[k] == (cards[k] || c / CARD_CELLS <= k <= (c + n - 1) / CARD_CELLS)
    ensures CardsClean(cards', highWater) && CardsMarked(cards, cards', c, n)
  {
    assert v1.descs[c / PAGE_CELLS].generation != Free;
    assert (c + n - 1) / PAGE_CELLS == c / PAGE_CELLS < highWater;
  }

  /** Allocation may be refused for another reason than a lack of pages. */
  predicate Blocked(h: PageHeap, dest: Generation)
    reads h`poisoned, h`liveTarget
  {
    h.poisoned || (dest == G0 && h.liveTarget != Some(G0))
  }

  lemma RoomLacks(regions: seq<AllocRegion>, dest: Generation, isCons: bool, n: nat)
    requires HasRegion(dest, Cons) && |regions| == 6 && n >= 1
    ensures NoRoom(regions, dest, isCons, n) <==>
            var r := regions[RegionIndex(dest, if isCons then Cons else Boxed)];
            r.currentPage.None? || r.offset + n > PAGE_CELLS
  {
  }

  lemma BumpStep(v: View, r0: seq<AllocRegion>, free0: seq<nat>, mid: View, v1: View, r1: seq<AllocRegion>,
                 free1: seq<nat>, dest: Generation, isCons: bool, c: nat, n: nat, st: Start)
    requires |r0| == 6 && RegionsOk(v.descs, r0) && HasRegion(dest, Cons)
    requires BumpedAt(v, mid, v1, dest, if isCons then Cons else Boxed, c, n, st)
    requires var i := RegionIndex(dest, if isCons then Cons else Boxed);
      && r1 == r0[i := AllocRegion(Some(c / PAGE_CELLS), c % PAGE_CELLS + n)]
      && (mid == v <==> r0[i].currentPage == Some(c / PAGE_CELLS))
      && (mid != v ==> r0[i].currentPage.None? || r0[i].offset + n > PAGE_CELLS)
      && (mid == v ==> free1 == free0) && (mid != v ==> Popped(v.descs, free0, free1, c / PAGE_CELLS))
    ensures RegionStep(v, r0, free0, mid, r1, free1, dest, isCons, c, n)
  {
    hide Popped;
    var i := RegionIndex(dest, if isCons then Cons else Boxed);
    if mid == v { OpenRegion(v.descs, r0, i); }
  }

  lemma ObjFits(g: Geometry, v: View, s: nat, n: nat)
    requires PartOk(g, v) && IsObj(v, s) && !IsMarker(g, v.cells[s]) && n == SizeOf(g, v, s)
    ensures 1 <= n <= PAGE_CELLS && s + n <= |v.cells|
    ensures UsedCell(v, s) && UsedCell(v, s + n - 1) && (s + n - 1) / PAGE_CELLS == s / PAGE_CELLS
    ensures forall i: nat | s <= i < s + n :: UsedCell(v, i) && i / PAGE_CELLS == s / PAGE_CELLS
  {
    assert ObjOk(g, v, s);
    forall i: nat | s <= i < s + n ensures UsedCell(v, i) && i / PAGE_CELLS == s / PAGE_CELLS {
      ExtentUsed(g, v, s, i - s);
    }
    ExtentUsed(g, v, s, n - 1);
  }

  lemma BumpSealed(v: View, mid: View, v1: View, dest: Generation, kind: PageKind, c: nat, n: nat, st: Start,
                   r0: seq<AllocRegion>, closed: set<nat>)
    requires |r0| == 6 && Sealed(v.descs, r0, closed) && BumpedAt(v, mid, v1, dest, kind, c, n, st)
    requires HasRegion(dest, kind)
    requires mid == v ==> r0[RegionIndex(dest, kind)].currentPage == Some(c / PAGE_CELLS)
    ensures c / PAGE_CELLS !in closed
    ensures Sealed(v1.descs, r0[RegionIndex(dest, kind) := AllocRegion(Some(c / PAGE_CELLS), c % PAGE_CELLS + n)],
        closed)
  {
    StillSealed(v, mid, dest, kind, c, n, r0, v1.descs, closed);
  }

  lemma BumpFacts(g: Geometry, v: View, committed: seq<bool>, mid: View, v1: View, dest: Generation, kind: PageKind,
                  s: nat, c: nat, n: nat, st: Start)
    requires MemoryOk(v, committed) && BumpedAt(v, mid, v1, dest, kind, c, n, st) && HasRegion(dest, kind)
    requires s < |v.starts| && v.starts[s] == st
    requires forall i: nat | s <= i < s + n :: UsedCell(v, i) && i / PAGE_CELLS == s / PAGE_CELLS
    ensures c + n <= |v1.cells| && (s + n <= c || c + n <= s)
    ensures |v1.cells| == |v.cells| && UsedCell(v1, s)
    ensures forall t | c <= t < c + n :: UsedCell(v1, t)
  {
    RoomEmpty(v, committed, mid, dest, kind, c, n);
    forall t | c <= t < c + n ensures t / PAGE_CELLS == c / PAGE_CELLS && t % PAGE_CELLS < c % PAGE_CELLS + n {
    }
    assert UsedCell(v, s) && !UsedCell(v, c);
  }

  lemma MovedByCopy(g: Geometry, v: View, committed: seq<bool>, mid: View, v1: View, w: View, dest: Generation,
                    kind: PageKind, s: nat, c: nat, n: nat)
    requires GeoOk(g) && Shaped(g, v) && MemoryOk(v, committed) && HasRegion(dest, kind) && s < |v.starts|
    requires BumpedAt(v, mid, v1, dest, kind, c, n, v.starts[s]) && s + n <= |v1.cells| && c < PAGE_CELLS * g.nPages
    requires w == v1.(cells := Blit(v1.cells, s, c, n, Marker(g, c)))
    requires n >= 1 && UsedCell(v, s) && UsedCell(v, s + n - 1) && (s + n - 1) / PAGE_CELLS == s / PAGE_CELLS
    ensures MovedTo(g, v, mid, w, dest, kind, s, c, n)
  {
    RoomEmpty(v, committed, mid, dest, kind, c, n);
  }

  /** The objects Phase 1 moves. */
  predicate Movable(v: View, marks: seq<bool>, pins: set<nat>, c: nat) {
    IsObj(v, c) && c < |marks| && marks[c] && c !in pins
  }

  /** Those on page `p` below cell `x`. */
  function MovableOn(v: View, marks: seq<bool>, pins: set<nat>, p: nat, x: nat): set<nat> {
    set c | PAGE_CELLS * p <= c < x && Movable(v, marks, pins, c)
  }

  /** Those on the small-object pages of `from` in a chunk. */
  function MovableIn(v: View, marks: seq<bool>, pins: set<nat>, from: Generation, chunk: seq<nat>): set<nat> {
    set c | 0 <= c < |marks| && MovableFrom(v, marks, pins, from, chunk, c)
  }

  predicate MovableFrom(v: View, marks: seq<bool>, pins: set<nat>, from: Generation, chunk: seq<nat>, c: nat) {
    && c / PAGE_CELLS in chunk && Movable(v, marks, pins, c)
    && v.descs[c / PAGE_CELLS].generation == from && v.descs[c / PAGE_CELLS].kind != Large
  }

  /** The two-level pin index: a pinned cell is an object whose page has the cell's slot bit set. */
  ghost predicate PinsOk(v: View, pins: set<nat>) {
    forall c | c in pins :: IsObj(v, c) && v.descs[c / PAGE_CELLS].IsPinned(PinSlot(c))
  }

  /** `is_pinned_cell`: the page's pin byte first, the precise set second. */
  method IsPinnedCell(h: PageHeap, c: nat) returns (b: bool)
    requires h.Valid() && c < h.cells.Length
    requires forall x | x in h.pinnedCells && x < h.cells.Length && x / PAGE_CELLS < h.nPages ::
               h.descs[x / PAGE_CELLS].IsPinned(PinSlot(x))
    ensures b == (c in h.pinnedCells)
  {
    hide Bit;
    if !h.descs[c / PAGE_CELLS].IsPinned(PinSlot(c)) { return false; }
    return c in h.pinnedCells;
  }

  /** The pages a set of cells lies on. */
  function PagesOf(cells: set<nat>): set<nat> { set c | c in cells :: c / PAGE_CELLS }

  /** Pages none of whose objects was moved and that were without gaps still are. */
  ghost predicate TiledKept(g: Geometry, v0: View, v: View, f: map<nat, nat>)
    requires Shaped(g, v0) && Shaped(g, v)
  {
    forall p | 0 <= p < |v.descs| && p !in PagesOf(f.Keys) && Tiled(g, v0, p) :: Tiled(g, v, p)
  }

  lemma SameCovered(g: Geometry, v: View, w: View, y: nat)
    requires Shaped(g, v) && Shaped(g, w) && y < |v.starts|
    requires forall x: nat | y / PAGE_CELLS * PAGE_CELLS <= x <= y ::
               w.starts[x] == v.starts[x] && w.cells[x] == v.cells[x]
    ensures Covered(g, w, y) <==> Covered(g, v, y)
  {
    SameOwner(v.starts, w.starts, y);
  }

  /** A move leaves no gap behind the block it fills. */
  lemma TiledMoved(g: Geometry, v: View, mid: View, w: View, dest: Generation, kind: PageKind, s: nat, c: nat, n: nat,
                   p: nat)
    requires GeoOk(g) && PartOk(g, v) && MovedTo(g, v, mid, w, dest, kind, s, c, n) && HasRegion(dest, kind)
    requires IsObj(v, s) && !IsMarker(g, v.cells[s]) && n == SizeOf(g, v, s) && Shaped(g, w)
    requires p < |v.descs| && s / PAGE_CELLS != p && Tiled(g, v, p)
    ensures Tiled(g, w, p)
  {
    hide Tiled, ObjOk, Owner;
    forall y: nat | y < |w.starts| && y / PAGE_CELLS == p && y % PAGE_CELLS < w.descs[p].wordsUsed
      ensures Covered(g, w, y) {
      if p == c / PAGE_CELLS && y >= c {
        InBlock(g, v, mid, w, dest, kind, s, c, n, y);
      } else {
        BelowBlock(g, v, mid, w, dest, kind, s, c, n, y);
        TiledAt(g, v, p, y);
        SameCovered(g, v, w, y);
      }
    }
    TiledBy(g, w, p);
  }

  lemma TiledBy(g: Geometry, v: View, p: nat)
    requires Shaped(g, v) && p < |v.descs|
    requires forall y: nat | y < |v.starts| && y / PAGE_CELLS == p && y % PAGE_CELLS < v.descs[p].wordsUsed ::
               Covered(g, v, y)
    ensures Tiled(g, v, p)
  {
  }

  lemma TiledAt(g: Geometry, v: View, p: nat, y: nat)
    requires Shaped(g, v) && p < |v.descs| && Tiled(g, v, p)
    requires y < |v.starts| && y / PAGE_CELLS == p && y % PAGE_CELLS < v.descs[p].wordsUsed
    ensures Covered(g, v, y)
  {
  }

  lemma InBlock(g: Geometry, v: View, mid: View, w: View, dest: Generation, kind: PageKind, s: nat, c: nat, n: nat,
                y: nat)
    requires GeoOk(g) && PartOk(g, v) && MovedTo(g, v, mid, w, dest, kind, s, c, n) && HasRegion(dest, kind)
    requires Shaped(g, w)
    requires IsObj(v, s) && !IsMarker(g, v.cells[s]) && n == SizeOf(g, v, s)
    requires c <= y < |w.starts| && y / PAGE_CELLS == c / PAGE_CELLS
    requires y % PAGE_CELLS < w.descs[c / PAGE_CELLS].wordsUsed
    ensures Covered(g, w, y)
  {
    BlockFilled(g, v, mid, w, dest, kind, s, c, n);
    hide MovedTo;
    assert Field(w, c, 0) == Field(v, s, 0) by { assert ObjOk(g, v, s); }
    OwnerIs(w.starts, c, y);
  }

  lemma BelowBlock(g: Geometry, v: View, mid: View, w: View, dest: Generation, kind: PageKind, s: nat, c: nat, n: nat,
                   y: nat)
    requires GeoOk(g) && Shaped(g, v) && MovedTo(g, v, mid, w, dest, kind, s, c, n) && HasRegion(dest, kind)
    requires Shaped(g, w)
    requires y < |w.starts| && y / PAGE_CELLS != s / PAGE_CELLS && (y / PAGE_CELLS != c / PAGE_CELLS || y < c)
    requires y % PAGE_CELLS < w.descs[y / PAGE_CELLS].wordsUsed
    ensures y % PAGE_CELLS < v.descs[y / PAGE_CELLS].wordsUsed
    ensures forall x: nat | y / PAGE_CELLS * PAGE_CELLS <= x <= y ::
              w.starts[x] == v.starts[x] && w.cells[x] == v.cells[x]
  {
    assert forall x: nat | y / PAGE_CELLS * PAGE_CELLS <= x <= y :: x / PAGE_CELLS == y / PAGE_CELLS;
    if y / PAGE_CELLS == c / PAGE_CELLS {
      assert c % PAGE_CELLS != 0;
    }
  }

  /** How far Phase 1 has come: `f` copied, from the view `v0` and the cards it started with. */
  ghost predicate CopySoFar(g: Geometry, v0: View, cards0: seq<bool>, v: View, cards: seq<bool>, f: map<nat, nat>,
                            dest: Generation, closed: set<nat>)
    requires GeoOk(g)
  {
    && HeapOk(g, v0) && PartOk(g, v) && Copied(g, v0, v, f, dest)
    && CopiesCarded(g, v0, f, cards0, cards)
    && DescsGrown(v0.descs, v.descs, dest)
    && (forall p | p in closed && p < |v0.descs| :: v.descs[p] == v0.descs[p])
    && (forall s | s in f :: f[s] / PAGE_CELLS !in closed)
    && TiledKept(g, v0, v, f)
  }

  lemma SoFarStep(g: Geometry, v0: View, cards0: seq<bool>, v: View, cards: seq<bool>, f: map<nat, nat>,
                  dest: Generation, closed: set<nat>, mid: View, w: View, cards': seq<bool>, kind: PageKind,
                  s: nat, c: nat, n: nat)
    requires GeoOk(g) && CopySoFar(g, v0, cards0, v, cards, f, dest, closed) && StartsUsed(v)
    requires forall p | 0 <= p < |v.descs| :: v.descs[p].wordsUsed <= PAGE_CELLS
    requires MovedTo(g, v, mid, w, dest, kind, s, c, n) && HasRegion(dest, kind)
    requires IsObj(v0, s) && s !in f && n == SizeOf(g, v0, s)
    requires CardsMarked(cards, cards', c, n) && c / PAGE_CELLS !in closed && s / PAGE_CELLS in closed
    ensures CopySoFar(g, v0, cards0, w, cards', f[s := c], dest, closed)
  {
    hide MovedTo, ObjOk, UsedCell, Kept, CopyAt, StartsUsed, LayoutAt, SizeOf, Copied, PartOk, HeapOk, DescsGrown,
      BlockCarded, Tiled, CardsMarked, CopiesCarded;
    SoFarSame(g, v0, v, f, dest, s);
    CopiedStep(g, v0, f, v, mid, w, dest, kind, s, c, n);
    MovedOk(g, v, mid, w, dest, kind, s, c, n);
    MovedPage(g, v, mid, w, dest, kind, s, c, n);
    GrownTrans(v0.descs, v.descs, w.descs, dest);
    CardedStep(g, v0, f, cards0, cards, cards', s, c);
    MorePages(f, s, c);
    forall p | 0 <= p < |w.descs| && p !in PagesOf(f[s := c].Keys) && Tiled(g, v0, p) ensures Tiled(g, w, p) {
      TiledMoved(g, v, mid, w, dest, kind, s, c, n, p);
    }
  }

  lemma MorePages(f: map<nat, nat>, s: nat, c: nat)
    ensures PagesOf(f[s := c].Keys) == PagesOf(f.Keys) + {s / PAGE_CELLS}
  {
    assert f[s := c].Keys == f.Keys + {s};
    assert s in f[s := c].Keys;
    forall x | x in f.Keys ensures x in f[s := c].Keys {}
  }

  /** A sealed set of pages may be taken smaller. */
  lemma SoFarFewer(g: Geometry, v0: View, cards0: seq<bool>, v: View, cards: seq<bool>, f: map<nat, nat>,
                   dest: Generation, closed: set<nat>, fewer: set<nat>)
    requires GeoOk(g) && CopySoFar(g, v0, cards0, v, cards, f, dest, closed) && fewer <= closed
    ensures CopySoFar(g, v0, cards0, v, cards, f, dest, fewer)
  {
    hide HeapOk, PartOk, Copied, CopiesCarded, DescsGrown, TiledKept;
  }

  lemma SoFarSame(g: Geometry, v0: View, v: View, f: map<nat, nat>, dest: Generation, s: nat)
    requires GeoOk(g) && HeapOk(g, v0) && Copied(g, v0, v, f, dest) && IsObj(v0, s) && s !in f
    ensures Shaped(g, v) && Shaped(g, v0)
    ensures IsObj(v, s) && !IsMarker(g, v.cells[s]) && SizeOf(g, v, s) == SizeOf(g, v0, s)
  {
    KeptSame(g, v0, v, s);
  }

  lemma GrownTrans(a: seq<PageDesc>, b: seq<PageDesc>, c: seq<PageDesc>, dest: Generation)
    requires DescsGrown(a, b, dest) && DescsGrown(b, c, dest) && dest != Free
    ensures DescsGrown(a, c, dest)
  {
  }

  lemma CardedStep(g: Geometry, v0: View, f: map<nat, nat>, cards0: seq<bool>, cards: seq<bool>, cards': seq<bool>,
                   s: nat, c: nat)
    requires |v0.starts| == |v0.cells| && CopiesCarded(g, v0, f, cards0, cards) && s < |v0.starts| && s !in f
    requires CardsMarked(cards, cards', c, SizeOf(g, v0, s))
    ensures CopiesCarded(g, v0, f[s := c], cards0, cards')
  {
    hide SizeOf;
    var f' := f[s := c];
    forall k | 0 <= k < |cards0| && cards'[k] && !cards0[k]
      ensures exists t :: t in f' && t < |v0.starts| && CoversCard(f'[t], SizeOf(g, v0, t), k)
    {
      if cards[k] {
        var t :| t in f && t < |v0.starts| && CoversCard(f[t], SizeOf(g, v0, t), k);
        assert t in f' && f'[t] == f[t];
      } else {
        assert s in f' && CoversCard(f'[s], SizeOf(g, v0, s), k);
      }
    }
  }

  /** On a sealed page the starts and the headers still to be visited are those of `v0`. */
  lemma NotYetMoved(g: Geometry, v0: View, v: View, f: map<nat, nat>, dest: Generation, x: nat)
    requires GeoOk(g) && HeapOk(g, v0) && Copied(g, v0, v, f, dest) && x < |v.starts| && x !in f
    requires x !in f.Values && v.descs[x / PAGE_CELLS] == v0.descs[x / PAGE_CELLS]
    requires GenAt(v, x) != Free
    ensures v.starts[x] != NoStart <==> IsObj(v0, x)
    ensures IsObj(v0, x) ==> IsObj(v, x) && v.starts[x] == v0.starts[x] && v.cells[x] == v0.cells[x]
    ensures IsObj(v0, x) ==> LayoutAt(g, v, x) == LayoutAt(g, v0, x) && !IsMarker(g, v.cells[x])
    ensures IsObj(v0, x) ==> SizeOf(g, v0, x) >= 1
    ensures IsObj(v0, x) ==> x % PAGE_CELLS + SizeOf(g, v0, x) <= v0.descs[x / PAGE_CELLS].wordsUsed
  {
    if IsObj(v0, x) { KeptSame(g, v0, v, x); }
  }

  lemma MovableSkip(v: View, marks: seq<bool>, pins: set<nat>, p: nat, x: nat)
    requires PAGE_CELLS * p <= x && !Movable(v, marks, pins, x)
    ensures MovableOn(v, marks, pins, p, x + 1) == MovableOn(v, marks, pins, p, x)
  {
  }

  lemma MovableNext(g: Geometry, v: View, marks: seq<bool>, pins: set<nat>, p: nat, x: nat)
    requires HeapOk(g, v) && PAGE_CELLS * p <= x && IsObj(v, x)
    ensures MovableOn(v, marks, pins, p, x + SizeOf(g, v, x)) ==
            MovableOn(v, marks, pins, p, x) + (if Movable(v, marks, pins, x) then {x} else {})
  {
    assert ObjOk(g, v, x);
  }

  lemma MovableLast(g: Geometry, v: View, marks: seq<bool>, pins: set<nat>, p: nat)
    requires StartsUsed(v) && p < |v.descs| && v.descs[p].wordsUsed <= PAGE_CELLS
    ensures MovableOn(v, marks, pins, p, PAGE_CELLS * p + v.descs[p].wordsUsed)
         == MovableOn(v, marks, pins, p, PAGE_CELLS * (p + 1))
  {
    forall c: nat | PAGE_CELLS * p <= c < PAGE_CELLS * (p + 1) && Movable(v, marks, pins, c)
      ensures c < PAGE_CELLS * p + v.descs[p].wordsUsed
    {
      assert UsedCell(v, c) && c / PAGE_CELLS == p;
    }
  }

  lemma InvFacts(v: View, committed: seq<bool>, freeList: seq<nat>, highWater: nat)
    requires MemoryOk(v, committed) && PagesOk(v.descs, committed, freeList, highWater)
    ensures StartsUsed(v)
    ensures forall p | 0 <= p < |v.descs| :: v.descs[p].wordsUsed <= PAGE_CELLS
  {
  }

  lemma CellOfPage(p: nat, x: nat)
    requires PAGE_CELLS * p <= x < PAGE_CELLS * (p + 1)
    ensures x / PAGE_CELLS == p && x % PAGE_CELLS == x - PAGE_CELLS * p
  {
  }

  lemma NothingMovable(v: View, marks: seq<bool>, pins: set<nat>, p: nat)
    ensures MovableOn(v, marks, pins, p, PAGE_CELLS * p) == {}
  {
  }

  lemma NotMovable(v: View, marks: seq<bool>, pins: set<nat>, x: nat)
    ensures !IsObj(v, x) || (x < |marks| && !marks[x]) ==> !Movable(v, marks, pins, x)
  {
  }

  lemma IsMovable(v: View, marks: seq<bool>, pins: set<nat>, x: nat)
    ensures IsObj(v, x) && x < |marks| && marks[x] ==> (Movable(v, marks, pins, x) <==> x !in pins)
  {
  }

  /** Pages in use keep their pin bytes while Phase 1 runs. */
  lemma SlotsKept(v0: View, descs: seq<PageDesc>, pins: set<nat>, dest: Generation)
    requires PinsOk(v0, pins) && DescsGrown(v0.descs, descs, dest)
    ensures forall x | x in pins :: x / PAGE_CELLS < |descs| && descs[x / PAGE_CELLS].IsPinned(PinSlot(x))
  {
    hide Bit;
  }

  /** What the walk of a sealed page finds at `x`, the cells below `x` being done. */
  lemma SoFarAt(g: Geometry, v0: View, cards0: seq<bool>, v: View, cards: seq<bool>, f0: map<nat, nat>,
                f: map<nat, nat>, dest: Generation, closed: set<nat>, marks: seq<bool>, pins: set<nat>, p: nat, x: nat)
    requires GeoOk(g) && CopySoFar(g, v0, cards0, v, cards, f, dest, closed)
    requires p in closed && p < |v.descs| && x / PAGE_CELLS == p && v.descs[p].generation != Free && x < |v.starts|
    requires forall s | s in f0 :: s / PAGE_CELLS != p
    requires f.Keys == f0.Keys + MovableOn(v0, marks, pins, p, x)
    ensures x !in f && DescsGrown(v0.descs, v.descs, dest) && HeapOk(g, v0) && PartOk(g, v) && x < |v0.starts|
    ensures v.starts[x] != NoStart <==> IsObj(v0, x)
    ensures IsObj(v0, x) ==> IsObj(v, x) && v.starts[x] == v0.starts[x] && v.cells[x] == v0.cells[x]
    ensures IsObj(v0, x) ==> LayoutAt(g, v, x) == LayoutAt(g, v0, x) && !IsMarker(g, v.cells[x])
    ensures IsObj(v0, x) ==> SizeOf(g, v, x) == SizeOf(g, v0, x) >= 1
    ensures IsObj(v0, x) ==> x % PAGE_CELLS + SizeOf(g, v0, x) <= v.descs[p].wordsUsed
  {
    hide HeapOk, Copied, PartOk, CopiesCarded, DescsGrown;
    assert x !in f;
    assert x !in f.Values by {
      forall s | s in f ensures f[s] != x {
        assert f[s] / PAGE_CELLS !in closed;
      }
    }
    SoFarShape(g, v0, v, f, dest);
    NotYetMoved(g, v0, v, f, dest, x);
  }

  lemma SealedPage(g: Geometry, v0: View, cards0: seq<bool>, v: View, cards: seq<bool>, f: map<nat, nat>,
                   dest: Generation, closed: set<nat>, regions: seq<AllocRegion>, p: nat)
    requires GeoOk(g) && CopySoFar(g, v0, cards0, v, cards, f, dest, closed)
    requires |regions| == 6 && Sealed(v.descs, regions, closed) && p in closed
    ensures p < |v0.descs| && p < |v.descs| && v.descs[p] == v0.descs[p] && v.descs[p].generation != Free
  {
  }

  lemma SoFarShape(g: Geometry, v0: View, v: View, f: map<nat, nat>, dest: Generation)
    requires GeoOk(g) && Copied(g, v0, v, f, dest)
    ensures Shaped(g, v0) && Shaped(g, v)
  {
  }

  /** What was copied went where the packing says. */
  ghost predicate Put(f: map<nat, nat>, d: Demand) {
    forall s | s in f :: s in d.at && d.at[s] == f[s]
  }

  lemma NonePut(d: Demand)
    ensures Put(map[], d)
  {
  }

  lemma PutMore(f: map<nat, nat>, d: Demand, x: nat, isCons: bool, n: nat, c: nat)
    requires Put(f, d) && x !in f && c == d.CellFor(isCons, n)
    ensures Put(f[x := c], d.More(x, isCons, n))
  {
  }

  method CopyOne(h: PageHeap, x: nat, isCons: bool, size: nat, dest: Generation, ghost v0: View,
                 ghost cards0: seq<bool>, ghost f0: map<nat, nat>, ghost d0: Demand,
                 ghost closed: set<nat>)
    returns (ok: bool, ghost f: map<nat, nat>, ghost d: Demand)
    requires h.Inv() && Sealed(h.descs, h.regions, closed) && HasRegion(dest, Cons)
    requires CopySoFar(h.Geo(), v0, cards0, h.V(), h.cards[..], f0, dest, closed)
    requires DemandSoFar(v0.descs, h.V(), h.regions, h.freeList, dest, d0) && Put(f0, d0)
    requires x / PAGE_CELLS in closed
    requires IsObj(v0, x) && x !in f0 && size == SizeOf(h.Geo(), v0, x) && isCons == (h.V().starts[x] == ConsStart)
    modifies h`descs, h`regions, h`bytesAlloc, h`committed, h`freeList, h`highWater, h.cells, h.startTable.bits, h.cards
    ensures h.Valid()
    ensures ok ==> h.Inv() && Sealed(h.descs, h.regions, closed)
    ensures ok ==> CopySoFar(h.Geo(), v0, cards0, h.V(), h.cards[..], f, dest, closed)
    ensures ok ==> f.Keys == f0.Keys + {x}
    ensures d == d0.More(x, isCons, size)
    ensures ok ==> DemandSoFar(v0.descs, h.V(), h.regions, h.freeList, dest, d) && Put(f, d)
    ensures Grew(d0, d, size, isCons)
    ensures !ok ==> Blocked(h, dest) || Unmet(v0.descs, d)
  {
    hide Put, CardsMarked, Starts, Lawful, GeoOk, MemoryOk, PagesOk, RegionsOk, WellPaired, MovedTo, Sealed, HeapOk,
      PartOk, Copied, StartsUsed, IsObj, CopySoFar, BlockCarded, DemandSoFar, Unmet, RegionStep, NoRoom, SizeOf,
      NoFreePage, PagesMoved;
    ghost var v, cards, r0, free0 := h.V(), h.cards[..], h.regions, h.freeList;
    ok, f, d := true, f0, d0.More(x, isCons, size);
    SoFarObject(h.Geo(), v0, cards0, v, cards, f0, dest, closed, x);
    InvFacts(v, h.committed, h.freeList, h.highWater);
    ghost var mid: View;
    var r: Option<nat>;
    r, mid := CopyObject(h, x, isCons, size, dest, closed);
    if r.None? {
      ok := false;
      if !Blocked(h, dest) { DemandUnmet(v0.descs, v, r0, free0, dest, d0, x, isCons, size); }
      return;
    }
    MovedCount(h.Geo(), v, mid, h.V(), dest, if isCons then Cons else Boxed, x, r.value, size);
    DemandStep(v0.descs, v, r0, free0, mid, h.V(), h.regions, h.freeList, dest, d0, x, isCons, r.value, size);
    SoFarStep(h.Geo(), v0, cards0, v, cards, f, dest, closed, mid, h.V(), h.cards[..], if isCons then Cons else Boxed,
              x, r.value, size);
    PutMore(f, d0, x, isCons, size, r.value);
    f := f[x := r.value];
  }

  lemma SoFarObject(g: Geometry, v0: View, cards0: seq<bool>, v: View, cards: seq<bool>, f: map<nat, nat>,
                    dest: Generation, closed: set<nat>, x: nat)
    requires GeoOk(g) && CopySoFar(g, v0, cards0, v, cards, f, dest, closed) && IsObj(v0, x) && x !in f
    ensures PartOk(g, v) && Shaped(g, v) && HeapOk(g, v0) && Shaped(g, v0)
    ensures IsObj(v, x) && !IsMarker(g, v.cells[x]) && SizeOf(g, v, x) == SizeOf(g, v0, x) >= 1
    ensures v.starts[x] == v0.starts[x] && (v.starts[x] == ConsStart ==> SizeOf(g, v, x) == 2)
  {
    SoFarSame(g, v0, v, f, dest, x);
  }

  /** A move takes one Free page, or none. */
  lemma MovedCount(g: Geometry, v: View, mid: View, w: View, dest: Generation, kind: PageKind, s: nat, c: nat, n: nat)
    requires GeoOk(g) && Shaped(g, v) && MovedTo(g, v, mid, w, dest, kind, s, c, n) && HasRegion(dest, kind)
    ensures CountGen(w.descs, Free) == CountGen(v.descs, Free) - if mid == v then 0 else 1
    ensures s < |v.starts| && PagesMoved(v, mid, w, dest, kind, c, n, v.starts[s])
  {
    hide CountGen, Blit;
    var p := c / PAGE_CELLS;
    if mid != v { CountChange(v.descs, p, FreshDesc(dest, kind), Free); }
    CountChange(mid.descs, p, mid.descs[p].(wordsUsed := c % PAGE_CELLS + n), Free);
  }

  /** A pinned object is left where it is. */
  method CopyUnlessPinned(h: PageHeap, p: nat, x: nat, isCons: bool, size: nat, dest: Generation, ghost v0: View,
                          ghost cards0: seq<bool>, ghost f0: map<nat, nat>, ghost d0: Demand,
                          ghost closed: set<nat>)
    returns (ok: bool, ghost f: map<nat, nat>, ghost d: Demand)
    requires h.Inv() && Sealed(h.descs, h.regions, closed) && HasRegion(dest, Cons)
    requires CopySoFar(h.Geo(), v0, cards0, h.V(), h.cards[..], f0, dest, closed) && DescsGrown(v0.descs, h.descs, dest)
    requires DemandSoFar(v0.descs, h.V(), h.regions, h.freeList, dest, d0) && Put(f0, d0)
    requires x / PAGE_CELLS == p && p in closed && x < h.cells.Length && PinsOk(v0, h.pinnedCells)
    requires IsObj(v0, x) && x !in f0 && size == SizeOf(h.Geo(), v0, x) && isCons == (h.V().starts[x] == ConsStart)
    requires h.V().starts[x] == v0.starts[x]
    modifies h`descs, h`regions, h`bytesAlloc, h`committed, h`freeList, h`highWater, h.cells, h.startTable.bits, h.cards
    ensures h.Valid()
    ensures ok ==> h.Inv() && Sealed(h.descs, h.regions, closed)
    ensures ok ==> CopySoFar(h.Geo(), v0, cards0, h.V(), h.cards[..], f, dest, closed)
    ensures ok ==> f.Keys == f0.Keys + if x in h.pinnedCells then {} else {x}
    ensures d == if x in h.pinnedCells then d0 else d0.More(x, isCons, size)
    ensures ok ==> DemandSoFar(v0.descs, h.V(), h.regions, h.freeList, dest, d) && Put(f, d)
    ensures Grew(d0, d, size, ConsesOn(v0, p))
    ensures !ok ==> Blocked(h, dest) || Unmet(v0.descs, d)
  {
    hide Put, Starts, Lawful, GeoOk, MemoryOk, PagesOk, RegionsOk, WellPaired, Sealed, HeapOk, PartOk, Copied,
      CopiesCarded, DescsGrown, PinsOk, IsObj, CopySoFar, DemandSoFar, Unmet, Blocked, ConsesOn, SizeOf, Bit;
    ok, f, d := true, f0, d0;
    SlotsKept(v0, h.descs, h.pinnedCells, dest);
    var pinned := IsPinnedCell(h, x);
    OnlyConses(v0, p, x);
    if !pinned {
      ok, f, d := CopyOne(h, x, isCons, size, dest, v0, cards0, f0, d0, closed);
    }
  }

  /** The objects Phase 1 moves. */
  function MoveSet(v: View, marks: seq<bool>, pins: set<nat>): set<nat> {
    set c | 0 <= c < |marks| && Movable(v, marks, pins, c)
  }

  /** What the cell at `x` adds to the packing: the object at it, if it moves. */
  lemma PackAt(g: Geometry, v: View, marks: seq<bool>, pins: set<nat>, p: nat, x: nat, d: Demand)
    requires HeapOk(g, v) && PAGE_CELLS * p <= x < |v.starts|
    ensures !Movable(v, marks, pins, x) ==>
              PackCells(g, v, MoveSet(v, marks, pins), p, x + 1, d) == PackCells(g, v, MoveSet(v, marks, pins), p, x, d)
    ensures IsObj(v, x) ==> (
              && SizeOf(g, v, x) >= 1
              && var before := PackCells(g, v, MoveSet(v, marks, pins), p, x, d);
                 PackCells(g, v, MoveSet(v, marks, pins), p, x + SizeOf(g, v, x), d) ==
                 if Movable(v, marks, pins, x) then before.More(x, v.starts[x] == ConsStart, SizeOf(g, v, x))
                     else before)
  {
    hide SizeOf, LayoutAt;
    var move := MoveSet(v, marks, pins);
    if !Movable(v, marks, pins, x) { PackNone(g, v, move, p, x, x + 1, d); }
    if IsObj(v, x) {
      assert ObjOk(g, v, x);
      var n := SizeOf(g, v, x);
      assert forall c | x < c < x + n :: !Movable(v, marks, pins, c);
      if Movable(v, marks, pins, x) {
        PackObject(g, v, move, p, x, n, d);
      } else {
        PackNone(g, v, move, p, x, x + n, d);
      }
    }
  }

  /** One turn of the inner loop: the cell at `x`, and the object at it if one starts there.
      `d0` is the demand at the start of the page. */
  method CopyCellAt(h: PageHeap, p: nat, x: nat, dest: Generation, ghost v0: View, ghost cards0: seq<bool>,
                    ghost f0: map<nat, nat>, ghost f1: map<nat, nat>, ghost d0: Demand, ghost d1: Demand,
                    ghost closed: set<nat>)
    returns (ok: bool, next: nat, ghost f: map<nat, nat>, ghost d: Demand)
    requires h.Inv() && Sealed(h.descs, h.regions, closed) && HasRegion(dest, Cons)
    requires CopySoFar(h.Geo(), v0, cards0, h.V(), h.cards[..], f1, dest, closed)
    requires DemandSoFar(v0.descs, h.V(), h.regions, h.freeList, dest, d1) && Put(f1, d1)
    requires d1 == PackCells(h.Geo(), v0, MoveSet(v0, h.markTable.Map(), h.pinnedCells), p, x, d0)
    requires p in closed && p < h.nPages && h.descs[p].wordsUsed <= PAGE_CELLS && h.descs[p].generation != Free
    requires PAGE_CELLS * p <= x < PAGE_CELLS * p + h.descs[p].wordsUsed && PinsOk(v0, h.pinnedCells)
    requires forall s | s in f0 :: s / PAGE_CELLS != p
    requires f1.Keys == f0.Keys + MovableOn(v0, h.markTable.Map(), h.pinnedCells, p, x)
    modifies h`descs, h`regions, h`bytesAlloc, h`committed, h`freeList, h`highWater, h.cells, h.startTable.bits, h.cards
    ensures h.Valid() && x < next <= PAGE_CELLS * p + old(h.descs)[p].wordsUsed
    ensures ok ==> h.Inv() && Sealed(h.descs, h.regions, closed)
    ensures ok ==> CopySoFar(h.Geo(), v0, cards0, h.V(), h.cards[..], f, dest, closed)
    ensures ok ==> f.Keys == f0.Keys + MovableOn(v0, h.markTable.Map(), h.pinnedCells, p, next)
    ensures ok ==> DemandSoFar(v0.descs, h.V(), h.regions, h.freeList, dest, d) && Put(f, d)
    ensures d == PackCells(h.Geo(), v0, MoveSet(v0, h.markTable.Map(), h.pinnedCells), p, next, d0)
    ensures Grew(d1, d, next - x, ConsesOn(v0, p))
    ensures !ok ==> Blocked(h, dest) || Unmet(v0.descs, d)
  {
    hide Put, Starts, Lawful, GeoOk, MemoryOk, PagesOk, RegionsOk, WellPaired, MovedTo, UsedCell, Sealed, Kept, CopyAt,
      HeapOk, PartOk, Copied, CopiesCarded, DescsGrown, Marks, PinsOk, StartsUsed, Movable, MovableOn, IsObj,
      CopySoFar, BlockCarded, DemandSoFar, Unmet, Blocked, ConsesOn, Grew, PackCells, MoveSet, CardsClean;
    ghost var g, marks := h.Geo(), h.markTable.Map();
    ghost var v, cards := h.V(), h.cards[..];
    ok, f, d := true, f1, d1;
    CellOfPage(p, x);
    SoFarAt(g, v0, cards0, v, cards, f0, f, dest, closed, marks, h.pinnedCells, p, x);
    PackAt(g, v0, marks, h.pinnedCells, p, x, d0);
    var marked := h.markTable.IsMarked(x);
    var isStart := h.startTable.IsStart(x);
    var src := h.layout.classify(h.cells[x]);
    if !marked || !isStart || (src.Forwarded? && h.PageOf(src.addr).Some?) {
      NotMovable(v0, marks, h.pinnedCells, x);
      MovableSkip(v0, marks, h.pinnedCells, p, x);
      GrewNone(d, ConsesOn(v0, p));
      GrewWider(d, d, 0, 1, ConsesOn(v0, p));
      next := x + 1;
      return;
    }
    var isCons := h.startTable.IsConsStart(x);
    var size := if isCons then 2 else h.layout.headerLayout(h.cells[x]).totalCells;
    MovableNext(g, v0, marks, h.pinnedCells, p, x);
    IsMovable(v0, marks, h.pinnedCells, x);
    next := x + size;
    ok, f, d := CopyUnlessPinned(h, p, x, isCons, size, dest, v0, cards0, f1, d1, closed);
  }

  /** The inner loop of `phase1_copy_chunk`: one source page. */
  method CopyPage(h: PageHeap, p: nat, dest: Generation, ghost v0: View, ghost cards0: seq<bool>,
                  ghost f0: map<nat, nat>, ghost d0: Demand, ghost closed: set<nat>)
    returns (ok: bool, ghost f: map<nat, nat>, ghost d: Demand)
    requires h.Inv() && Sealed(h.descs, h.regions, closed) && HasRegion(dest, Cons)
    requires CopySoFar(h.Geo(), v0, cards0, h.V(), h.cards[..], f0, dest, closed)
    requires DemandSoFar(v0.descs, h.V(), h.regions, h.freeList, dest, d0) && Put(f0, d0)
    requires p in closed && p < h.nPages && v0.descs[p].wordsUsed <= PAGE_CELLS && StartsUsed(v0)
    requires PinsOk(v0, h.pinnedCells)
    requires forall s | s in f0 :: s / PAGE_CELLS != p
    modifies h`descs, h`regions, h`bytesAlloc, h`committed, h`freeList, h`highWater, h.cells, h.startTable.bits, h.cards
    ensures h.Valid()
    ensures ok ==> h.Inv() && Sealed(h.descs, h.regions, closed)
    ensures ok ==> CopySoFar(h.Geo(), v0, cards0, h.V(), h.cards[..], f, dest, closed)
    ensures ok ==> f.Keys == f0.Keys + MovableOn(v0, h.markTable.Map(), h.pinnedCells, p, PAGE_CELLS * (p + 1))
    ensures ok ==> DemandSoFar(v0.descs, h.V(), h.regions, h.freeList, dest, d) && Put(f, d)
    ensures ok ==>
              d == PackCells(h.Geo(), v0, MoveSet(v0, h.markTable.Map(), h.pinnedCells), p, PAGE_CELLS * (p + 1), d0)
    ensures Grew(d0, d, PAGE_CELLS, ConsesOn(v0, p))
    ensures !ok ==> Blocked(h, dest) || Unmet(v0.descs, d)
    ensures d.Pages() <= PackCells(h.Geo(), v0, MoveSet(v0, h.markTable.Map(), h.pinnedCells), p, PAGE_CELLS * (p + 1),
        d0).Pages()
  {
    hide Put, Starts, Lawful, GeoOk, MemoryOk, PagesOk, RegionsOk, WellPaired, MovedTo, UsedCell, Sealed, Kept, CopyAt,
      HeapOk, PartOk, Copied, CopiesCarded, DescsGrown, Marks, PinsOk, StartsUsed, Movable, MovableOn, IsObj,
      CopySoFar, BlockCarded, DemandSoFar, Unmet, Blocked, ConsesOn, Grew, PackCells, MoveSet, CardsClean;
    ghost var g, marks, move := h.Geo(), h.markTable.Map(), MoveSet(v0, h.markTable.Map(), h.pinnedCells);
    ok, f, d := true, f0, d0;
    SealedPage(g, v0, cards0, h.V(), h.cards[..], f0, dest, closed, h.regions, p);
    var first := PAGE_CELLS * p;
    var last := first + h.descs[p].wordsUsed;
    var x := first;
    NothingMovable(v0, marks, h.pinnedCells, p);
    PackFirst(g, v0, move, p, d0);
    GrewNone(d0, ConsesOn(v0, p));
    while x < last
      invariant first <= x <= last
      invariant h.Inv() && Sealed(h.descs, h.regions, closed)
      invariant CopySoFar(g, v0, cards0, h.V(), h.cards[..], f, dest, closed)
      invariant f.Keys == f0.Keys + MovableOn(v0, marks, h.pinnedCells, p, x)
      invariant DemandSoFar(v0.descs, h.V(), h.regions, h.freeList, dest, d) && Put(f, d)
      invariant Grew(d0, d, x - first, ConsesOn(v0, p))
      invariant d == PackCells(g, v0, move, p, x, d0)
    {
      SealedPage(g, v0, cards0, h.V(), h.cards[..], f, dest, closed, h.regions, p);
      ghost var d1 := d;
      var next;
      ok, next, f, d := CopyCellAt(h, p, x, dest, v0, cards0, f0, f, d0, d, closed);
      GrewStep(d0, d1, d, x - first, next - x, ConsesOn(v0, p), ConsesOn(v0, p));
      if !ok {
        GrewWider(d0, d, next - first, PAGE_CELLS, ConsesOn(v0, p));
        PackGrows(g, v0, move, p, next, PAGE_CELLS * (p + 1), d0);
        return;
      }
      x := next;
    }
    GrewWider(d0, d, x - first, PAGE_CELLS, ConsesOn(v0, p));
    MovableLast(g, v0, marks, h.pinnedCells, p);
    PackLast(g, v0, marks, h.pinnedCells, p, d0);
  }

  lemma PackFirst(g: Geometry, v: View, move: set<nat>, p: nat, d: Demand)
    ensures PackCells(g, v, move, p, PAGE_CELLS * p, d) == d
  {
  }

  lemma PackLast(g: Geometry, v: View, marks: seq<bool>, pins: set<nat>, p: nat, d: Demand)
    requires StartsUsed(v) && p < |v.descs| && v.descs[p].wordsUsed <= PAGE_CELLS
    ensures PackCells(g, v, MoveSet(v, marks, pins), p, PAGE_CELLS * p + v.descs[p].wordsUsed, d)
         == PackCells(g, v, MoveSet(v, marks, pins), p, PAGE_CELLS * (p + 1), d)
  {
    forall c | PAGE_CELLS * p + v.descs[p].wordsUsed <= c < PAGE_CELLS * (p + 1) ensures c !in MoveSet(v, marks, pins) {
      assert c / PAGE_CELLS == p;
      assert Movable(v, marks, pins, c) ==> UsedCell(v, c);
    }
    PackNone(g, v, MoveSet(v, marks, pins), p, PAGE_CELLS * p + v.descs[p].wordsUsed, PAGE_CELLS * (p + 1), d);
  }

  /** Every object on page `p` is a cons. */
  ghost predicate ConsesOn(v: View, p: nat) {
    forall s | 0 <= s < |v.starts| && IsObj(v, s) && s / PAGE_CELLS == p :: v.starts[s] == ConsStart
  }

  lemma OnlyConses(v: View, p: nat, x: nat)
    requires IsObj(v, x) && x / PAGE_CELLS == p
    ensures ConsesOn(v, p) ==> v.starts[x] == ConsStart
  {
  }

  lemma ChunkNext(v: View, marks: seq<bool>, pins: set<nat>, from: Generation, chunk: seq<nat>, i: nat)
    requires i < |chunk| && chunk[i] < |v.descs|
    ensures MovableIn(v, marks, pins, from, chunk[..i + 1]) ==
            MovableIn(v, marks, pins, from, chunk[..i]) +
            (if v.descs[chunk[i]].generation == from && v.descs[chunk[i]].kind != Large
             then MovableOn(v, marks, pins, chunk[i], PAGE_CELLS * (chunk[i] + 1)) else {})
  {
    assert chunk[..i + 1] == chunk[..i] + [chunk[i]];
    forall c: nat ensures c / PAGE_CELLS == chunk[i] <==> PAGE_CELLS * chunk[i] <= c < PAGE_CELLS * (chunk[i] + 1) {}
    hide IsObj;
  }

  /** `phase1_copy_chunk`: the marked, unpinned objects of the chunk, and no others,
      are copied to `dest` and forwarded. `!ok` is running out of memory, which happens
      exactly if next fit packs the objects into more fresh pages than there are. */
  method CopyChunk(h: PageHeap, from: Generation, dest: Generation, chunk: seq<nat>, ghost d0: Demand,
                   ghost closed: set<nat>)
    returns (ok: bool, ghost f: map<nat, nat>, ghost d: Demand)
    requires h.Inv() && HeapOk(h.Geo(), h.V()) && HasRegion(dest, Cons)
    requires Sealed(h.descs, h.regions, closed) && PinsOk(h.V(), h.pinnedCells)
    requires (forall i | 0 <= i < |chunk| :: chunk[i] in closed)
    requires (forall i, j | 0 <= i < j < |chunk| :: chunk[i] != chunk[j])
    requires DemandSoFar(h.descs, h.V(), h.regions, h.freeList, dest, d0) && Fresh(d0)
    modifies h`descs, h`regions, h`bytesAlloc, h`committed, h`freeList, h`highWater, h.cells, h.startTable.bits, h.cards
    ensures h.Valid()
    ensures ok ==> h.Inv() && Sealed(h.descs, h.regions, closed)
    ensures ok ==> CopySoFar(h.Geo(), old(h.V()), old(h.cards[..]), h.V(), h.cards[..], f, dest, closed)
    ensures ok ==> f.Keys == MovableIn(old(h.V()), h.markTable.Map(), h.pinnedCells, from, chunk)
    ensures d == PackChunk(h.Geo(), old(h.V()), MoveSet(old(h.V()), h.markTable.Map(), h.pinnedCells), from, chunk,
        |chunk|, d0)
    ensures ok ==> DemandSoFar(old(h.descs), h.V(), h.regions, h.freeList, dest, d) && Put(f, d)
    ensures ok ==> d.Pages() <= PagesAsked(old(h.V()), chunk)
    ensures !ok ==> Blocked(h, dest) || (d.Pages() > CountGen(old(h.descs), Free)
                                         && CountGen(old(h.descs), Free) < PagesAsked(old(h.V()), chunk))
  {
    hide Put, Starts, Lawful, GeoOk, MemoryOk, PagesOk, RegionsOk, WellPaired, Sealed, HeapOk, PartOk, Copied,
      CopiesCarded, DescsGrown, Marks, PinsOk, StartsUsed, MovableIn, MovableOn, IsObj, CopySoFar, DemandSoFar, Unmet,
      Blocked, CountGen, ConsesOn, ConsesIn, Grew, PackChunk, MoveSet, CardsClean, Fits;
    ghost var g, v0, cards0, marks := h.Geo(), h.V(), h.cards[..], h.markTable.Map();
    ghost var move := MoveSet(v0, marks, h.pinnedCells);
    ok, f, d := true, map[], PackChunk(g, v0, move, from, chunk, |chunk|, d0);
    ghost var now, conses := d0, ConsesIn(v0, chunk);
    PackNoPage(g, v0, move, from, chunk, d0);
    InvFacts(v0, h.committed, h.freeList, h.highWater);
    SoFarStart(g, v0, cards0, dest, closed);
    NoChunk(v0, marks, h.pinnedCells, from, chunk);
    assert Put(f, now) by { NonePut(now); }
    for i := 0 to |chunk|
      invariant h.Inv() && Sealed(h.descs, h.regions, closed)
      invariant CopySoFar(g, v0, cards0, h.V(), h.cards[..], f, dest, closed)
      invariant f.Keys == MovableIn(v0, marks, h.pinnedCells, from, chunk[..i])
      invariant DemandSoFar(v0.descs, h.V(), h.regions, h.freeList, dest, now) && Put(f, now)
      invariant Within(now, PAGE_CELLS * i, conses)
      invariant now == PackChunk(g, v0, move, from, chunk, i, d0)
    {
      SealedPage(g, v0, cards0, h.V(), h.cards[..], f, dest, closed, h.regions, chunk[i]);
      ChunkNext(v0, marks, h.pinnedCells, from, chunk, i);
      ChunkBefore(v0, marks, h.pinnedCells, from, chunk, i, f);
      PackPage(g, v0, move, from, chunk, i, d0);
      if h.descs[chunk[i]].generation != from || h.descs[chunk[i]].kind == Large { continue; }
      ConsesAt(v0, chunk, i);
      ghost var before := now;
      ok, f, now := CopyPage(h, chunk[i], dest, v0, cards0, f, now, closed);
      GrewMore(before, now, PAGE_CELLS * i, conses, ConsesOn(v0, chunk[i]));
      if !ok {
        if !Blocked(h, dest) {
          ChunkGrows(g, v0, move, from, chunk, i + 1, |chunk|, d0);
          ChunkUnmet(v0.descs, now, i, |chunk|, conses);
        }
        return;
      }
    }
    assert chunk[..|chunk|] == chunk;
    ChunkMet(v0.descs, h.V(), h.regions, h.freeList, dest, now, |chunk|, conses);
  }

  lemma PackNoPage(g: Geometry, v: View, move: set<nat>, from: Generation, chunk: seq<nat>, d: Demand)
    ensures PackChunk(g, v, move, from, chunk, 0, d) == d
    ensures Fresh(d) ==> Within(d, PAGE_CELLS * 0, true)
  {
  }

  lemma PackPage(g: Geometry, v: View, move: set<nat>, from: Generation, chunk: seq<nat>, i: nat, d: Demand)
    requires i < |chunk| && chunk[i] < |v.descs|
    ensures PackChunk(g, v, move, from, chunk, i + 1, d) ==
            var before := PackChunk(g, v, move, from, chunk, i, d);
            if v.descs[chunk[i]].generation == from && v.descs[chunk[i]].kind != Large
            then PackCells(g, v, move, chunk[i], PAGE_CELLS * (chunk[i] + 1), before) else before
  {
    hide PackCells;
  }

  lemma ChunkUnmet(before: seq<PageDesc>, d: Demand, i: nat, n: nat, conses: bool)
    requires i < n && Unmet(before, d) && Within(d, PAGE_CELLS * (i + 1), conses)
    ensures CountGen(before, Free) < d.Pages() <= if conses then n else 2 * n
  {
    hide Fits, CountGen;
    AskedBound(d, i + 1, n, conses);
  }

  lemma ChunkMet(before: seq<PageDesc>, v: View, regions: seq<AllocRegion>, freeList: seq<nat>,
                 dest: Generation, d: Demand, n: nat, conses: bool)
    requires DemandSoFar(before, v, regions, freeList, dest, d) && Within(d, PAGE_CELLS * n, conses)
    ensures d.Pages() <= if conses then n else 2 * n
  {
    hide Fits, CountGen, Shelf;
    AskedBound(d, n, n, conses);
  }

  ghost predicate ConsesIn(v: View, chunk: seq<nat>) {
    forall i | 0 <= i < |chunk| :: ConsesOn(v, chunk[i])
  }

  /** At most so many fresh pages the copy of a chunk asks for: twice its own length, or
      its own length if all it holds is conses. */
  ghost function PagesAsked(v: View, chunk: seq<nat>): nat {
    if ConsesIn(v, chunk) then |chunk| else 2 * |chunk|
  }

  lemma ConsesAt(v: View, chunk: seq<nat>, i: nat)
    requires i < |chunk|
    ensures ConsesIn(v, chunk) ==> ConsesOn(v, chunk[i])
  {
    hide ConsesOn;
  }

  lemma NoChunk(v: View, marks: seq<bool>, pins: set<nat>, from: Generation, chunk: seq<nat>)
    ensures MovableIn(v, marks, pins, from, chunk[..0]) == {}
  {
  }

  lemma ChunkBefore(v: View, marks: seq<bool>, pins: set<nat>, from: Generation, chunk: seq<nat>, i: nat,
                    f: map<nat, nat>)
    requires i < |chunk| && f.Keys == MovableIn(v, marks, pins, from, chunk[..i])
    requires forall i, j | 0 <= i < j < |chunk| :: chunk[i] != chunk[j]
    ensures forall s | s in f :: s / PAGE_CELLS != chunk[i]
  {
    hide IsObj;
    forall s | s in f ensures s / PAGE_CELLS != chunk[i] {
      assert s in f.Keys && MovableFrom(v, marks, pins, from, chunk[..i], s);
      var j :| 0 <= j < i && chunk[..i][j] == s / PAGE_CELLS;
      assert chunk[j] == s / PAGE_CELLS;
    }
  }

  lemma SoFarStart(g: Geometry, v: View, cards: seq<bool>, dest: Generation, closed: set<nat>)
    requires GeoOk(g) && HeapOk(g, v)
    ensures CopySoFar(g, v, cards, v, cards, map[], dest, closed)
  {
    forall s: nat | s < |v.starts| && IsObj(v, s) ensures s + SizeOf(g, v, s) <= |v.cells| {
      assert ObjOk(g, v, s);
      ExtentOwner(g, v, s, SizeOf(g, v, s) - 1);
    }
    NothingCopied(g, v, dest);
  }
}
