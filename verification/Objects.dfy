/** Objects in the page heap, as pure functions of a snapshot of its memory.

    A `View` is the cell memory, the start table and the page descriptors. The
    geometry fixes the language layout and where the reservation lies. */
module Objects {
  import opened Bits
  import opened Options
  import opened Bitmaps
  import opened Layouts
  import opened Pages

  datatype Geometry = Geometry(layout: HeapLayout, base: nat, nPages: nat)

  ghost predicate GeoOk(g: Geometry) {
    && Lawful(g.layout)
    && g.base % 8 == 0
    && g.base + PAGE_BYTES * g.nPages <= TWO_64
  }

  datatype View = View(cells: seq<u64>, starts: seq<Start>, descs: seq<PageDesc>)

  predicate Shaped(g: Geometry, v: View) {
    && |v.descs| == g.nPages
    && |v.cells| == |v.starts| == PAGE_CELLS * g.nPages
  }

  // -- Words ----------------------------------------------------------------

  function AddrOf(g: Geometry, c: nat): (a: u64)
    requires GeoOk(g) && c < PAGE_CELLS * g.nPages
    ensures Aligned(a)
  {
    g.base + 8 * c
  }

  /** A pointer word whose address lies in the reservation. */
  predicate InHeap(g: Geometry, w: u64) {
    var k := g.layout.classify(w);
    k.IsPointer() && g.base <= k.addr < g.base + PAGE_BYTES * g.nPages
  }

  function CellOf(g: Geometry, w: u64): (c: nat)
    requires InHeap(g, w)
    ensures c < PAGE_CELLS * g.nPages
  {
    (g.layout.classify(w).addr - g.base) / 8
  }

  /** A forwarding marker whose target lies in the reservation. */
  predicate IsMarker(g: Geometry, w: u64) {
    var k := g.layout.classify(w);
    k.Forwarded? && g.base <= k.addr < g.base + PAGE_BYTES * g.nPages
  }

  function MarkerCell(g: Geometry, w: u64): (c: nat)
    requires IsMarker(g, w)
    ensures c < PAGE_CELLS * g.nPages
  {
    (g.layout.classify(w).addr - g.base) / 8
  }

  function Marker(g: Geometry, c: nat): u64
    requires GeoOk(g) && c < PAGE_CELLS * g.nPages
  {
    g.layout.makeForward(AddrOf(g, c))
  }

  /** `w` re-aimed at cell `c`: address replaced, every other bit kept. */
  function Aimed(g: Geometry, w: u64, c: nat): u64
    requires GeoOk(g) && c < PAGE_CELLS * g.nPages
  {
    g.layout.rewritePointerAddr(w, AddrOf(g, c))
  }

  lemma MarkerLaw(g: Geometry, c: nat)
    requires GeoOk(g) && c < PAGE_CELLS * g.nPages
    ensures IsMarker(g, Marker(g, c)) && MarkerCell(g, Marker(g, c)) == c
    ensures g.layout.classify(Marker(g, c)) == Forwarded(AddrOf(g, c))
  {
  }

  lemma AimLaw(g: Geometry, w: u64, c: nat)
    requires GeoOk(g) && c < PAGE_CELLS * g.nPages && g.layout.classify(w).IsPointer()
    ensures g.layout.classify(Aimed(g, w, c)) == g.layout.classify(w).Aim(AddrOf(g, c))
    ensures InHeap(g, Aimed(g, w, c)) && CellOf(g, Aimed(g, w, c)) == c
    ensures !IsMarker(g, Aimed(g, w, c))
  {
  }

  lemma AimTwice(g: Geometry, w: u64, c: nat, d: nat)
    requires GeoOk(g) && c < PAGE_CELLS * g.nPages && d < PAGE_CELLS * g.nPages
    requires g.layout.classify(w).IsPointer()
    ensures Aimed(g, Aimed(g, w, c), d) == Aimed(g, w, d)
  {
  }

  // -- Objects --------------------------------------------------------------

  predicate IsObj(v: View, s: nat) {
    && s < |v.starts| && s / PAGE_CELLS < |v.descs|
    && v.starts[s] != NoStart
    && v.descs[s / PAGE_CELLS].generation != Free
  }

  function GenAt(v: View, c: nat): Generation
    requires c / PAGE_CELLS < |v.descs|
  {
    v.descs[c / PAGE_CELLS].generation
  }

  function LayoutAt(g: Geometry, v: View, s: nat): ObjectLayout
    requires s < |v.starts| && s < |v.cells|
  {
    if v.starts[s] == ConsStart then ObjectLayout(2, 0, 2) else g.layout.headerLayout(v.cells[s])
  }

  function SizeOf(g: Geometry, v: View, s: nat): nat
    requires s < |v.starts| && s < |v.cells|
  {
    LayoutAt(g, v, s).totalCells
  }

  /** The word at offset `i` of the object at `s`. */
  function Field(v: View, s: nat, i: nat): u64
    requires s + i < |v.cells|
  {
    v.cells[s + i]
  }

  /** Offset `i` of the object at `s` holds a tagged word. */
  predicate IsPtrOff(g: Geometry, v: View, s: nat, i: nat)
    requires s < |v.starts| && s < |v.cells|
  {
    LayoutAt(g, v, s).ptrStart <= i < LayoutAt(g, v, s).ptrEnd
  }

  /** The object's extent lies below the fill level of its page, and nothing starts inside it. */
  ghost predicate Whole(g: Geometry, v: View, s: nat)
    requires Shaped(g, v) && s < |v.starts|
  {
    && SizeOf(g, v, s) >= 1
    && (LayoutAt(g, v, s).ptrStart < LayoutAt(g, v, s).ptrEnd ==> LayoutAt(g, v, s).ptrEnd <= SizeOf(g, v, s))
    && s % PAGE_CELLS + SizeOf(g, v, s) <= v.descs[s / PAGE_CELLS].wordsUsed <= PAGE_CELLS
    && (forall t | s < t < s + SizeOf(g, v, s) && t < |v.starts| :: v.starts[t] == NoStart)
  }

  /** A well-formed object: its header decodes, it is whole, and its first cell is no marker. */
  ghost predicate ObjOk(g: Geometry, v: View, s: nat)
    requires Shaped(g, v) && s < |v.starts|
  {
    && (v.starts[s] == HeaderStart ==> g.layout.decodes(v.cells[s]))
    && Whole(g, v, s)
    && !IsMarker(g, v.cells[s])
  }

  ghost predicate HeapOk(g: Geometry, v: View) {
    && Shaped(g, v)
    && (forall s | IsObj(v, s) :: ObjOk(g, v, s))
  }

  predicate NoLarge(v: View) {
    forall p | 0 <= p < |v.descs| :: v.descs[p].kind != Large
  }

  function AllObjs(v: View): set<nat> {
    set s | 0 <= s < |v.starts| && IsObj(v, s)
  }

  // -- Which object owns a cell --------------------------------------------

  /** `object_start_at_or_before`: the nearest start at or below `c` on its page. */
  function Owner(starts: seq<Start>, c: nat): (o: Option<nat>)
    requires c < |starts|
    ensures o.Some? ==> o.value <= c && o.value / PAGE_CELLS == c / PAGE_CELLS && starts[o.value] != NoStart
    ensures o.Some? ==> forall t | o.value < t <= c :: starts[t] == NoStart
    ensures o.None? ==> forall t | c / PAGE_CELLS * PAGE_CELLS <= t <= c :: starts[t] == NoStart
    decreases c
  {
    if starts[c] != NoStart then Some(c)
    else if c % PAGE_CELLS == 0 then None
    else Owner(starts, c - 1)
  }

  lemma OwnerIs(starts: seq<Start>, s: nat, c: nat)
    requires s <= c < |starts| && s / PAGE_CELLS == c / PAGE_CELLS
    requires starts[s] != NoStart
    requires forall t | s < t <= c :: starts[t] == NoStart
    ensures Owner(starts, c) == Some(s)
  {
  }

  /** Cell `c` is a pointer cell of the object at `s`. */
  predicate PtrCellOf(g: Geometry, v: View, s: nat, c: nat)
    requires s < |v.starts| && s < |v.cells|
  {
    s <= c && IsPtrOff(g, v, s, c - s)
  }

  /** In a well-formed heap an object owns exactly the cells of its extent that
      lie on its page, so offsets and owners describe the same pointer cells. */
  lemma ExtentOwner(g: Geometry, v: View, s: nat, i: nat)
    requires Shaped(g, v) && IsObj(v, s) && Whole(g, v, s) && i < SizeOf(g, v, s)
    ensures s + i < |v.cells| && (s + i) / PAGE_CELLS == s / PAGE_CELLS
    ensures Owner(v.starts, s + i) == Some(s)
  {
    assert s + i < PAGE_CELLS * (s / PAGE_CELLS) + PAGE_CELLS;
    assert s / PAGE_CELLS < g.nPages;
    OwnerIs(v.starts, s, s + i);
  }

  lemma {:induction false} SameOwner(a: seq<Start>, b: seq<Start>, c: nat)
    requires |a| == |b| && c < |a|
    requires forall x | c / PAGE_CELLS * PAGE_CELLS <= x <= c :: a[x] == b[x]
    ensures Owner(a, c) == Owner(b, c)
    decreases c
  {
    if c % PAGE_CELLS != 0 { SameOwner(a, b, c - 1); }
  }
}
