/** Pins: explicit ones with their refcounts, and those found on the stack. */
module Pins {
  import opened Bits
  import opened Options
  import opened Bitmaps
  import opened Pages
  import opened Objects
  import opened PageHeaps
  import opened Copying
  import opened EvacMarking

  /** A word that can be pinned: it points at the start of an object. */
  predicate Pinnable(g: Geometry, v: View, w: u64) {
    InHeap(g, w) && IsObj(v, CellOf(g, w))
  }

  /** Every recorded pin counts at least once. */
  ghost predicate Counted(pins: map<nat, nat>) { forall c | c in pins :: pins[c] >= 1 }

  /** Every recorded pin holds an object as well. */
  ghost predicate CountsOk(v: View, pins: map<nat, nat>) { Counted(pins) && forall c | c in pins :: IsObj(v, c) }

  function CountOf(pins: map<nat, nat>, c: nat): nat { if c in pins then pins[c] else 0 }

  /** `pin_target_cell`. */
  method PinTargetCell(h: PageHeap, w: u64) returns (r: Option<nat>)
    requires h.Valid()
    ensures r == if Pinnable(h.Geo(), h.V(), w) then Some(CellOf(h.Geo(), w)) else None
  {
    hide Starts, GeoOk;
    var kind := h.layout.classify(w);
    if !kind.IsPointer() { return None; }
    var page := h.PageOf(kind.addr);
    if page.None? || h.descs[page.value].generation == Free { return None; }
    var c := (kind.addr - h.base) / 8;
    var isStart := h.startTable.IsStart(c);
    if !isStart { return None; }
    return Some(c);
  }

  /** `pin`: the handle names the pinned cell, or nothing. */
  method Pin(h: PageHeap, w: u64) returns (handle: Option<nat>)
    requires h.Valid() && Counted(h.explicitPins)
    modifies h`explicitPins
    ensures h.Valid() && Counted(h.explicitPins)
    ensures CountsOk(h.V(), old(h.explicitPins)) ==> CountsOk(h.V(), h.explicitPins)
    ensures handle == if Pinnable(h.Geo(), h.V(), w) then Some(CellOf(h.Geo(), w)) else None
    ensures forall c: nat ::
              CountOf(h.explicitPins, c) == CountOf(old(h.explicitPins), c) + if handle == Some(c) then 1 else 0
  {
    hide Starts, GeoOk;
    handle := PinTargetCell(h, w);
    if handle.Some? {
      h.explicitPins := h.explicitPins[handle.value := CountOf(h.explicitPins, handle.value) + 1];
    }
  }

  /** `unpin`: one count less; never below zero, and no entry at zero. */
  method Unpin(h: PageHeap, handle: Option<nat>)
    requires h.Valid() && Counted(h.explicitPins)
    modifies h`explicitPins
    ensures h.Valid() && Counted(h.explicitPins)
    ensures CountsOk(h.V(), old(h.explicitPins)) ==> CountsOk(h.V(), h.explicitPins)
    ensures forall c: nat :: CountOf(h.explicitPins, c) ==
              if handle == Some(c) && CountOf(old(h.explicitPins), c) > 0 then CountOf(old(h.explicitPins), c) - 1
              else CountOf(old(h.explicitPins), c)
  {
    hide Starts, GeoOk;
    if handle.None? || handle.value !in h.explicitPins { return; }
    var c := handle.value;
    var count := h.explicitPins[c] - 1;
    h.explicitPins := if count == 0 then h.explicitPins - {c} else h.explicitPins[c := count];
  }

  // -- Conservative pins ----------------------------------------------------

  /** The objects in one of the generations `gens` that the words of a stack may point to. */
  function Conserved(g: Geometry, v: View, words: seq<u64>, gens: set<Generation>): set<nat> {
    set w | w in words && Pinnable(g, v, w) && GenAt(v, CellOf(g, w)) in gens :: CellOf(g, w)
  }

  lemma ConservedNext(g: Geometry, v: View, words: seq<u64>, gens: set<Generation>, i: nat)
    requires i < |words|
    ensures Conserved(g, v, words[..i + 1], gens) ==
            Conserved(g, v, words[..i], gens)
            + if Pinnable(g, v, words[i]) && GenAt(v, CellOf(g, words[i])) in gens then {CellOf(g, words[i])} else {}
  {
    assert words[..i + 1] == words[..i] + [words[i]];
  }

  lemma SamePinnable(g: Geometry, v: View, w: View, x: u64)
    requires PinBytesOnly(v, w)
    ensures Pinnable(g, w, x) <==> Pinnable(g, v, x)
    ensures Pinnable(g, v, x) ==> CellOf(g, x) / PAGE_CELLS < |v.descs|
    ensures Pinnable(g, v, x) ==>
              CellOf(g, x) / PAGE_CELLS < |w.descs| && GenAt(w, CellOf(g, x)) == GenAt(v, CellOf(g, x))
  {
  }

  lemma SameConserved(g: Geometry, v: View, w: View, words: seq<u64>, gens: set<Generation>)
    requires PinBytesOnly(v, w)
    ensures Conserved(g, w, words, gens) == Conserved(g, v, words, gens)
  {
    forall x | x in words ensures Pinnable(g, w, x) <==> Pinnable(g, v, x) { SamePinnable(g, v, w, x); }
  }

  /** `pin_pointers_in_ranges`: every object of generation `target` that one of the words may point
      to is pinned for the collection that follows. */
  method PinConservatively(h: PageHeap, words: seq<u64>, target: Generation)
    requires h.Inv() && PinsOk(h.V(), h.pinnedCells)
    modifies h`descs, h`pinnedCells
    ensures h.Inv() && PinBytesOnly(old(h.V()), h.V()) && PinsOk(h.V(), h.pinnedCells)
    ensures h.pinnedCells == old(h.pinnedCells) + Conserved(h.Geo(), old(h.V()), words, {target})
    ensures PinnedBy(old(h.V()), h.V(), Conserved(h.Geo(), old(h.V()), words, {target}))
  {
    hide Starts, GeoOk, MemoryOk, PagesOk, RegionsOk, PinsOk, WellPaired, PinBytesOnly, IsObj, CardsClean, Pinnable,
      Conserved, PinnedBy;
    ghost var g, v := h.Geo(), h.V();
    SamePinBytes(v);
    NonePinned(v);
    assert words[..0] == [] && Conserved(g, v, [], {target}) == {} by { NoneConserved(g, v, {target}); }
    for i := 0 to |words|
      invariant h.Inv() && PinBytesOnly(v, h.V()) && PinsOk(h.V(), h.pinnedCells)
      invariant h.pinnedCells == old(h.pinnedCells) + Conserved(g, v, words[..i], {target})
      invariant PinnedBy(v, h.V(), Conserved(g, v, words[..i], {target}))
    {
      ConservedNext(g, v, words, {target}, i);
      assert Conserved(g, v, words[..i], {target}) + {} == Conserved(g, v, words[..i], {target});
      SamePinnable(g, v, h.V(), words[i]);
      var cell := PinTargetCell(h, words[i]);
      if cell.Some? && h.descs[cell.value / PAGE_CELLS].generation == target {
        var c := cell.value;
        ghost var u := h.V();
        PinnablePage(g, u, words[i]);
        h.pinnedCells := h.pinnedCells + {c};
        h.descs := h.descs[c / PAGE_CELLS := h.descs[c / PAGE_CELLS].SetPin(PinSlot(c))];
        PinSet(v, u, h.V(), old(h.pinnedCells) + Conserved(g, v, words[..i], {target}), c);
        PinTables(u, h.V(), h.committed, h.freeList, h.highWater, h.regions);
        OnePinned(v, u, h.V(), Conserved(g, v, words[..i], {target}), c);
      }
    }
    assert words[..|words|] == words;
  }

  function GensOf(gens: seq<Generation>): set<Generation> { set gen | gen in gens }

  lemma GensNext(gens: seq<Generation>, i: nat)
    requires i < |gens|
    ensures GensOf(gens[..i + 1]) == GensOf(gens[..i]) + {gens[i]}
  {
    assert gens[..i + 1] == gens[..i] + [gens[i]];
  }

  /** The driver's pins: the words of the stacks, generation after generation. */
  method PinAll(h: PageHeap, words: seq<u64>, gens: seq<Generation>)
    requires h.Inv() && PinsOk(h.V(), h.pinnedCells)
    modifies h`descs, h`pinnedCells
    ensures h.Inv() && PinBytesOnly(old(h.V()), h.V()) && PinsOk(h.V(), h.pinnedCells)
    ensures h.pinnedCells == old(h.pinnedCells) + Conserved(h.Geo(), old(h.V()), words, GensOf(gens))
    ensures PinnedBy(old(h.V()), h.V(), Conserved(h.Geo(), old(h.V()), words, GensOf(gens)))
  {
    hide Starts, GeoOk, MemoryOk, PagesOk, RegionsOk, PinsOk, WellPaired, PinBytesOnly, CardsClean, Conserved,
      PinnedBy;
    ghost var g, v := h.Geo(), h.V();
    SamePinBytes(v);
    NonePinned(v);
    NoGens(g, v, words);
    assert GensOf(gens[..0]) == {};
    for i := 0 to |gens|
      invariant h.Inv() && PinBytesOnly(v, h.V()) && PinsOk(h.V(), h.pinnedCells)
      invariant h.pinnedCells == old(h.pinnedCells) + Conserved(g, v, words, GensOf(gens[..i]))
      invariant PinnedBy(v, h.V(), Conserved(g, v, words, GensOf(gens[..i])))
    {
      ghost var u := h.V();
      SameConserved(g, v, u, words, {gens[i]});
      PinConservatively(h, words, gens[i]);
      PinBytesTrans(v, u, h.V());
      PinnedTrans(v, u, h.V(), Conserved(g, v, words, GensOf(gens[..i])), Conserved(g, v, words, {gens[i]}));
      MoreGens(g, v, words, GensOf(gens[..i]), gens[i]);
      GensNext(gens, i);
    }
    assert gens[..|gens|] == gens;
  }

  lemma NonePinned(v: View)
    ensures PinnedBy(v, v, {})
  {
  }

  /** One cell more: its page carries a pin byte now. */
  lemma OnePinned(v: View, u: View, w: View, cells: set<nat>, c: nat)
    requires PinnedBy(v, u, cells) && c / PAGE_CELLS < |u.descs|
    requires w.descs == u.descs[c / PAGE_CELLS := u.descs[c / PAGE_CELLS].SetPin(PinSlot(c))]
    ensures PinnedBy(v, w, cells + {c})
  {
    PinBits(u.descs[c / PAGE_CELLS], PinSlot(c), PinSlot(c));
    PinBits(u.descs[c / PAGE_CELLS].SetPin(PinSlot(c)), PinSlot(c), PinSlot(c));
    assert PagesOf(cells + {c}) == PagesOf(cells) + {c / PAGE_CELLS};
  }

  lemma PinnedTrans(v: View, u: View, w: View, a: set<nat>, b: set<nat>)
    requires PinnedBy(v, u, a) && PinnedBy(u, w, b)
    ensures PinnedBy(v, w, a + b)
  {
    assert PagesOf(a + b) == PagesOf(a) + PagesOf(b);
  }

  lemma PinBytesTrans(v: View, u: View, w: View)
    requires PinBytesOnly(v, u) && PinBytesOnly(u, w)
    ensures PinBytesOnly(v, w)
  {
  }

  lemma NoGens(g: Geometry, v: View, words: seq<u64>)
    ensures Conserved(g, v, words, {}) == {}
  {
  }

  lemma MoreGens(g: Geometry, v: View, words: seq<u64>, gens: set<Generation>, gen: Generation)
    ensures Conserved(g, v, words, gens + {gen}) == Conserved(g, v, words, gens) + Conserved(g, v, words, {gen})
  {
    hide InHeap, CellOf;
  }

  lemma NoneConserved(g: Geometry, v: View, gens: set<Generation>)
    ensures Conserved(g, v, [], gens) == {}
  {
  }

  lemma PinnablePage(g: Geometry, v: View, w: u64)
    requires Pinnable(g, v, w)
    ensures InHeap(g, w) && IsObj(v, CellOf(g, w)) && CellOf(g, w) / PAGE_CELLS < |v.descs|
  {
  }
}
