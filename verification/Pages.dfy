/** Page descriptors: generation, kind, fill level, pin byte and large-run length. */
module Pages {
  import opened Bits

  datatype Generation = Free | G0 | G1 | Tenured

  datatype PageKind = Unassigned | Cons | Boxed | Large

  const PAGE_CELLS: nat := 8192
  const PAGE_BYTES: nat := 65536
  const CARD_CELLS: nat := 64
  const CARDS_PER_PAGE: nat := 128
  const PIN_SLOTS_PER_PAGE: nat := 8
  const CELLS_PER_PIN_SLOT: nat := 1024

  datatype PageDesc = PageDesc(
    generation: Generation,
    kind: PageKind,
    wordsUsed: nat,
    pinByte: nat,
    nSpan: nat,
    zeroed: bool)
  {
    predicate HasPins() { pinByte != 0 }

    predicate IsPinned(slot: nat) { Bit(pinByte, slot) }

    function SetPin(slot: nat): PageDesc { this.(pinByte := Or(pinByte, Pow2(slot))) }

    predicate IsLargeHead() { kind == Large && nSpan >= 1 }

    predicate IsLargeCont() { kind == Large && nSpan == 0 }
  }

  const FREE_DESC: PageDesc := PageDesc(Free, Unassigned, 0, 0, 0, false)

  /** Descriptor of a page just handed to a generation. */
  function FreshDesc(generation: Generation, kind: PageKind): PageDesc {
    PageDesc(generation, kind, 0, 0, if kind == Cons || kind == Boxed then 1 else 0, false)
  }

  /** Pin slot of a cell: the 8 KB sub-region of its page it falls in. */
  function PinSlot(c: nat): (slot: nat)
    ensures slot < PIN_SLOTS_PER_PAGE
  {
    (c % PAGE_CELLS) / CELLS_PER_PIN_SLOT
  }

  /** A set bit makes the byte non-zero, and setting a slot keeps the others. */
  lemma PinBits(d: PageDesc, slot: nat, k: nat)
    ensures d.SetPin(slot).IsPinned(k) == (d.IsPinned(k) || slot == k)
    ensures d.IsPinned(k) ==> d.HasPins()
  {
    BitOr(d.pinByte, Pow2(slot), k);
    BitPow2(slot, k);
    BitZero(k);
  }

  /** How many of `descs` are in generation `gen`. */
  function CountGen(descs: seq<PageDesc>, gen: Generation): (n: nat)
    ensures n <= |descs|
  {
    if descs == [] then 0
    else (if descs[|descs| - 1].generation == gen then 1 else 0) + CountGen(descs[..|descs| - 1], gen)
  }

  /** Changing one page changes the count of a generation by that page alone. */
  lemma {:induction false} CountChange(descs: seq<PageDesc>, p: nat, d: PageDesc, gen: Generation)
    requires p < |descs|
    ensures CountGen(descs[p := d], gen) + (if descs[p].generation == gen then 1 else 0) ==
            CountGen(descs, gen) + (if d.generation == gen then 1 else 0)
  {
    var n := |descs| - 1;
    if p == n {
      assert descs[p := d][..n] == descs[..n];
    } else {
      CountChange(descs[..n], p, d, gen);
      assert descs[p := d][..n] == descs[..n][p := d];
    }
  }

  /** The pages of `gen`, in ascending order. */
  function PagesIn(descs: seq<PageDesc>, gen: Generation): (ps: seq<nat>)
    ensures forall i | 0 <= i < |ps| :: ps[i] < |descs| && descs[ps[i]].generation == gen
    ensures forall i, j | 0 <= i < j < |ps| :: ps[i] < ps[j]
    ensures forall p | 0 <= p < |descs| && descs[p].generation == gen :: p in ps
  {
    if descs == [] then [] else
      var n := |descs| - 1;
      var rest := PagesIn(descs[..n], gen);
      assert forall p | 0 <= p < n :: descs[..n][p] == descs[p];
      if descs[n].generation == gen then rest + [n] else rest
  }
}
