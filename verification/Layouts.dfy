/** The language-binding interface of the collector and its two bindings.

    A `HeapLayout` is a record of the operations the collector asks of a
    language. `Lawful` lists the laws the collector relies on; `LispLawful` and
    `TinyLawful` discharge them for the 3-bit and the 2-bit tag scheme. */
module Layouts {
  import opened Bits
  import opened Options

  datatype WordKind =
    | Immediate
    | PointerCons(addr: nat)
    | PointerHeader(addr: nat)
    | Forwarded(addr: nat)
  {
    predicate IsPointer() { PointerCons? || PointerHeader? }

    /** The same kind of word, aimed at `a`. */
    function Aim(a: nat): WordKind {
      match this
      case Immediate => Immediate
      case PointerCons(_) => PointerCons(a)
      case PointerHeader(_) => PointerHeader(a)
      case Forwarded(_) => Forwarded(a)
    }
  }

  /** Size and pointer range of a header-bearing object, in cells from its header. */
  datatype ObjectLayout = ObjectLayout(totalCells: nat, ptrStart: nat, ptrEnd: nat)

  function Opaque(totalCells: nat): ObjectLayout { ObjectLayout(totalCells, 0, 0) }

  datatype HeapLayout = HeapLayout(
    classify: u64 -> WordKind,
    makeForward: u64 -> u64,
    rewritePointerAddr: (u64, u64) -> u64,
    headerLayout: u64 -> ObjectLayout,
    decodes: u64 -> bool)            // false where header_layout panics

  /** Addresses the collector hands to the layout: 8-byte aligned words. */
  predicate Aligned(a: nat) { a % 8 == 0 && a < TWO_64 }

  /** What the collector relies on. The pointer laws are the lens laws of
      "the address of a word": put-get, put-put and get-put. */
  ghost predicate Lawful(l: HeapLayout) {
    && (forall a: u64 | Aligned(a) :: l.classify(l.makeForward(a)) == Forwarded(a))
    && (forall w: u64, a: u64 | l.classify(w).IsPointer() && Aligned(a) ::
          l.classify(l.rewritePointerAddr(w, a)) == l.classify(w).Aim(a))
    && (forall w: u64, a: u64, b: u64 | l.classify(w).IsPointer() && Aligned(a) && Aligned(b) ::
          l.rewritePointerAddr(l.rewritePointerAddr(w, a), b) == l.rewritePointerAddr(w, b))
    && (forall w: u64 | l.classify(w).IsPointer() && Aligned(l.classify(w).addr) ::
          l.rewritePointerAddr(w, l.classify(w).addr) == w)
    && l.classify(0) == Immediate
    && (forall h: u64 | l.decodes(h) :: l.headerLayout(h).totalCells >= 1)
    && (forall h: u64 | l.decodes(h) && l.headerLayout(h).ptrStart < l.headerLayout(h).ptrEnd ::
          l.headerLayout(h).ptrStart >= 1)
  }

  // -- The 3-bit Lisp scheme ------------------------------------------------

  const TAG_MASK: u64 := 0x7
  const PAYLOAD_MASK: u64 := 0xFFFF_FFFF_FFFF_FFF8
  const TAG_CONS: nat := 1
  const TAG_FORWARD: nat := 7

  function LispClassify(raw: u64): WordKind {
    var tag := And(raw, TAG_MASK);
    var addr := And(raw, PAYLOAD_MASK);
    if tag == 0 || tag == 6 then Immediate
    else if tag == TAG_CONS then PointerCons(addr)
    else if tag == TAG_FORWARD then Forwarded(addr)
    else PointerHeader(addr)
  }

  function LispForward(a: u64): u64 {
    OrFits(a, TAG_FORWARD);
    Or(a, TAG_FORWARD)
  }

  function LispRewrite(w: u64, a: u64): u64 {
    OrFits(a, And(w, TAG_MASK));
    Or(a, And(w, TAG_MASK))
  }

  datatype HeapType =
    | Symbol | Vector | Function | String | FfiBlock | Other | Bignum | Float | Ratio | Complex

  const LEN_MASK: nat := 0xFF_FFFF
  const MAX_OBJECT_CELLS: nat := 0xFF_FFFF
  const LEN_SHIFT: nat := 32            // << 5
  const GC_SHIFT: nat := 0x2000_0000    // << 29

  function TypeBits(t: HeapType): nat {
    match t
    case Symbol => 0 case Vector => 1 case Function => 2 case String => 3 case FfiBlock => 4
    case Other => 5 case Bignum => 6 case Float => 7 case Ratio => 8 case Complex => 9
  }

  /** The header decoder panics on the bit patterns that have no type (`None`). */
  function TypeFromBits(bits: nat): Option<HeapType> {
    if bits == 0 then Some(Symbol) else if bits == 1 then Some(Vector)
    else if bits == 2 then Some(Function) else if bits == 3 then Some(String)
    else if bits == 4 then Some(FfiBlock) else if bits == 5 then Some(Other)
    else if bits == 6 then Some(Bignum) else if bits == 7 then Some(Float)
    else if bits == 8 then Some(Ratio) else if bits == 9 then Some(Complex)
    else None
  }

  function HeaderType(raw: u64): Option<HeapType> { TypeFromBits(And(raw, 31)) }

  function HeaderLength(raw: u64): nat { And(raw / LEN_SHIFT, LEN_MASK) }

  function NewHeader(t: HeapType, length: nat): u64
    requires length <= MAX_OBJECT_CELLS
  {
    var len := And(length, LEN_MASK) * LEN_SHIFT;
    OrFits(len, TypeBits(t));
    Or(len, TypeBits(t))
  }

  /** `set_gc_bit`: `bit` is one of the GcBit masks 1, 2 and 4. */
  function SetGcBit(raw: u64, bit: nat): u64
    requires bit < 256
  {
    OrFits(raw, bit * GC_SHIFT);
    Or(raw, bit * GC_SHIFT)
  }

  /** Word-valued payload cells of a type, as an inclusive range of offsets. */
  function WordFieldRange(t: HeapType, len: nat): ObjectLayout {
    match t
    case Vector | Symbol | Ratio | Complex | Other =>
      if len == 0 then Opaque(1) else ObjectLayout(1 + len, 1, len + 1)
    case Function => ObjectLayout(1 + len, 3, 5)
    case Bignum => ObjectLayout(1 + len, 1, 5)
    case Float => ObjectLayout(1 + len, 1, 2)
    case String | FfiBlock => Opaque(1 + len)
  }

  function LispHeaderLayout(raw: u64): ObjectLayout {
    match HeaderType(raw)
    case Some(t) => WordFieldRange(t, HeaderLength(raw))
    case None => Opaque(1)
  }

  function LispLayout(): HeapLayout {
    HeapLayout((w: u64) => LispClassify(w),
               (a: u64) => LispForward(a),
               (w: u64, a: u64) => LispRewrite(w, a),
               (h: u64) => LispHeaderLayout(h),
               (h: u64) => HeaderType(h).Some?)
  }

  // -- The 2-bit Tiny scheme ------------------------------------------------

  const TINY_TAG_MASK: u64 := 0x3
  const TINY_PAYLOAD_MASK: u64 := 0xFFFF_FFFF_FFFF_FFFC

  function TinyClassify(raw: u64): WordKind {
    var addr := And(raw, TINY_PAYLOAD_MASK);
    match And(raw, TINY_TAG_MASK)
    case 0 => Immediate
    case 1 => PointerCons(addr)
    case 2 => PointerHeader(addr)
    case _ => Forwarded(addr)
  }

  function TinyForward(a: u64): u64 {
    OrFits(a, 3);
    Or(a, 3)
  }

  function TinyRewrite(w: u64, a: u64): u64 {
    OrFits(a, And(w, TINY_TAG_MASK));
    Or(a, And(w, TINY_TAG_MASK))
  }

  function TinyHeaderLayout(raw: u64): ObjectLayout { ObjectLayout(1 + raw, 1, 1 + raw) }

  function TinyLayout(): HeapLayout {
    HeapLayout((w: u64) => TinyClassify(w),
               (a: u64) => TinyForward(a),
               (w: u64, a: u64) => TinyRewrite(w, a),
               (h: u64) => TinyHeaderLayout(h),
               (h: u64) => true)
  }

  // -- Mask arithmetic ------------------------------------------------------

  lemma OrFits(x: u64, y: nat)
    requires y < TWO_64
    ensures Or(x, y) < TWO_64
  {
    Pow2Values();
    OrBound(x, y, 64);
  }

  lemma LowBits(raw: nat)
    ensures And(raw, 7) == raw % 8 && And(raw, 3) == raw % 4
  {
    hide And, Or;
    Pow2Values();
    AndLowMask(raw, 3);
    AndLowMask(raw, 2);
  }

  lemma And4(x: nat, m: nat)
    ensures And(x, 4 * m) == 4 * And(x / 4, m)
  {
    hide And, Or;
    AndEven(x, 2 * m);
    AndEven(x / 2, m);
    assert x / 2 / 2 == x / 4;
  }

  lemma And8(x: nat, m: nat)
    ensures And(x, 8 * m) == 8 * And(x / 8, m)
  {
    hide And, Or;
    And4(x, 2 * m);
    AndEven(x / 4, m);
    assert x / 4 / 2 == x / 8;
  }

  /** The tag is the remainder and the payload the rest: 3-bit scheme. */
  lemma LispMasks(raw: u64)
    ensures And(raw, TAG_MASK) == raw % 8
    ensures And(raw, PAYLOAD_MASK) == raw - raw % 8
  {
    hide And, Or;
    LowBits(raw);
    And8(raw, 0x1FFF_FFFF_FFFF_FFFF);
    KeepAll(raw / 8, 61) by { Pow2Values(); }
    assert Pow2(61) == 0x2000_0000_0000_0000 by { Pow2Values(); }
  }

  /** The tag is the remainder and the payload the rest: 2-bit scheme. */
  lemma TinyMasks(raw: u64)
    ensures And(raw, TINY_TAG_MASK) == raw % 4
    ensures And(raw, TINY_PAYLOAD_MASK) == raw - raw % 4
  {
    hide And, Or;
    LowBits(raw);
    And4(raw, 0x3FFF_FFFF_FFFF_FFFF);
    KeepAll(raw / 4, 62) by { Pow2Values(); }
    assert Pow2(62) == 0x4000_0000_0000_0000 by { Pow2Values(); }
  }

  /** Or-ing a tag into an aligned address adds it. */
  lemma OrTag(a: nat, tag: nat)
    requires a % 8 == 0 && tag < 8
    ensures Or(a, tag) == a + tag
  {
    hide And, Or;
    assert Pow2(3) == 8 by { Pow2Values(); }
    OrDisjoint(a / 8, tag, 3);
  }

  // -- The laws hold --------------------------------------------------------

  /** Classification, rewriting and forwarding as arithmetic: 3-bit scheme. */
  lemma LispArith(w: u64, a: u64)
    requires Aligned(a)
    ensures LispClassify(w) ==
            if w % 8 == 0 || w % 8 == 6 then Immediate
            else if w % 8 == 1 then PointerCons(w - w % 8)
            else if w % 8 == 7 then Forwarded(w - w % 8)
            else PointerHeader(w - w % 8)
    ensures LispRewrite(w, a) == a + w % 8
    ensures LispForward(a) == a + 7
  {
    hide And, Or;
    LispMasks(w);
    OrTag(a, w % 8);
    OrTag(a, 7);
  }

  lemma LispPut(w: u64, a: u64)
    requires Aligned(a)
    ensures LispRewrite(w, a) == a + w % 8
    ensures LispClassify(w).IsPointer() ==> LispClassify(LispRewrite(w, a)) == LispClassify(w).Aim(a)
    ensures LispClassify(LispForward(a)) == Forwarded(a)
  {
    hide And, Or;
    LispArith(w, a);
    LispArith(LispRewrite(w, a), a);
    LispArith(LispForward(a), a);
  }

  /** Classification, rewriting and forwarding as arithmetic: 2-bit scheme. */
  lemma TinyArith(w: u64, a: u64)
    requires Aligned(a)
    ensures TinyClassify(w) ==
            if w % 4 == 0 then Immediate
            else if w % 4 == 1 then PointerCons(w - w % 4)
            else if w % 4 == 2 then PointerHeader(w - w % 4)
            else Forwarded(w - w % 4)
    ensures TinyRewrite(w, a) == a + w % 4
    ensures TinyForward(a) == a + 3
  {
    hide And, Or;
    TinyMasks(w);
    OrTag(a, w % 4);
    OrTag(a, 3);
  }

  lemma TinyPut(w: u64, a: u64)
    requires Aligned(a)
    ensures TinyRewrite(w, a) == a + w % 4
    ensures TinyClassify(w).IsPointer() ==> TinyClassify(TinyRewrite(w, a)) == TinyClassify(w).Aim(a)
    ensures TinyClassify(TinyForward(a)) == Forwarded(a)
  {
    hide And, Or;
    TinyArith(w, a);
    TinyArith(TinyRewrite(w, a), a);
    TinyArith(TinyForward(a), a);
  }

  /** Put-put and get-put for the 3-bit scheme. */
  lemma LispLens(w: u64, a: u64, b: u64)
    requires Aligned(a) && Aligned(b)
    ensures LispRewrite(LispRewrite(w, a), b) == LispRewrite(w, b)
    ensures LispClassify(w).IsPointer() && LispClassify(w).addr == a ==> LispRewrite(w, a) == w
  {
    hide And, Or;
    LispArith(w, a);
    LispArith(w, b);
    var r := LispRewrite(w, a);
    LispArith(r, b);
  }

  lemma TinyLens(w: u64, a: u64, b: u64)
    requires Aligned(a) && Aligned(b)
    ensures TinyRewrite(TinyRewrite(w, a), b) == TinyRewrite(w, b)
    ensures TinyClassify(w).IsPointer() && TinyClassify(w).addr == a ==> TinyRewrite(w, a) == w
  {
    hide And, Or;
    TinyArith(w, a);
    TinyArith(w, b);
    var r := TinyRewrite(w, a);
    TinyArith(r, b);
  }

  /** The laws of the 3-bit scheme, for one word and two addresses. */
  ghost predicate LispLaws(w: u64, a: u64, b: u64) {
    && LispClassify(LispForward(a)) == Forwarded(a)
    && (LispClassify(w).IsPointer() ==> LispClassify(LispRewrite(w, a)) == LispClassify(w).Aim(a))
    && LispRewrite(LispRewrite(w, a), b) == LispRewrite(w, b)
    && (LispClassify(w).IsPointer() && LispClassify(w).addr == a ==> LispRewrite(w, a) == w)
  }

  lemma LispLawful()
    ensures Lawful(LispLayout())
  {
    hide And, Or;
    forall w: u64, a: u64, b: u64 | Aligned(a) && Aligned(b)
      ensures LispLaws(w, a, b)
    {
      LispPut(w, a);
      LispLens(w, a, b);
    }
    LispArith(0, 0);
    var l := LispLayout();
    forall a: u64 | Aligned(a) ensures l.classify(l.makeForward(a)) == Forwarded(a) { assert LispLaws(0, a, a); }
    forall w: u64, a: u64 | l.classify(w).IsPointer() && Aligned(a)
      ensures l.classify(l.rewritePointerAddr(w, a)) == l.classify(w).Aim(a)
    { assert LispLaws(w, a, a); }
    forall w: u64, a: u64, b: u64 | l.classify(w).IsPointer() && Aligned(a) && Aligned(b)
      ensures l.rewritePointerAddr(l.rewritePointerAddr(w, a), b) == l.rewritePointerAddr(w, b)
    { assert LispLaws(w, a, b); }
    forall w: u64 | l.classify(w).IsPointer() && Aligned(l.classify(w).addr)
      ensures l.rewritePointerAddr(w, l.classify(w).addr) == w
    { assert LispLaws(w, l.classify(w).addr, 0); }
  }

  /** The laws of the 2-bit scheme, for one word and two addresses. */
  ghost predicate TinyLaws(w: u64, a: u64, b: u64) {
    && TinyClassify(TinyForward(a)) == Forwarded(a)
    && (TinyClassify(w).IsPointer() ==> TinyClassify(TinyRewrite(w, a)) == TinyClassify(w).Aim(a))
    && TinyRewrite(TinyRewrite(w, a), b) == TinyRewrite(w, b)
    && (TinyClassify(w).IsPointer() && TinyClassify(w).addr == a ==> TinyRewrite(w, a) == w)
  }

  lemma TinyLawful()
    ensures Lawful(TinyLayout())
  {
    hide And, Or;
    forall w: u64, a: u64, b: u64 | Aligned(a) && Aligned(b)
      ensures TinyLaws(w, a, b)
    {
      TinyPut(w, a);
      TinyLens(w, a, b);
    }
    TinyArith(0, 0);
    var l := TinyLayout();
    forall a: u64 | Aligned(a) ensures l.classify(l.makeForward(a)) == Forwarded(a) { assert TinyLaws(0, a, a); }
    forall w: u64, a: u64 | l.classify(w).IsPointer() && Aligned(a)
      ensures l.classify(l.rewritePointerAddr(w, a)) == l.classify(w).Aim(a)
    { assert TinyLaws(w, a, a); }
    forall w: u64, a: u64, b: u64 | l.classify(w).IsPointer() && Aligned(a) && Aligned(b)
      ensures l.rewritePointerAddr(l.rewritePointerAddr(w, a), b) == l.rewritePointerAddr(w, b)
    { assert TinyLaws(w, a, b); }
    forall w: u64 | l.classify(w).IsPointer() && Aligned(l.classify(w).addr)
      ensures l.rewritePointerAddr(w, l.classify(w).addr) == w
    { assert TinyLaws(w, l.classify(w).addr, 0); }
  }

  // -- Object headers -------------------------------------------------------

  /** Header fields as arithmetic. */
  lemma HeaderFields(raw: u64)
    ensures And(raw, 31) == raw % 32
    ensures HeaderLength(raw) == (raw / 32) % 0x100_0000
  {
    hide And, Or;
    Pow2Values();
    AndLowMask(raw, 5);
    AndLowMask(raw / 32, 24);
  }

  lemma {:induction false} OrComm(x: nat, y: nat)
    ensures Or(x, y) == Or(y, x)
    decreases x + y
  {
    if x != 0 && y != 0 { OrComm(x / 2, y / 2); }
  }

  /** A packed header, with any GC flag bits added, as a sum. */
  lemma HeaderSum(t: HeapType, length: nat, bit: nat)
    requires length <= MAX_OBJECT_CELLS && bit < 256
    ensures NewHeader(t, length) == length * 32 + TypeBits(t)
    ensures SetGcBit(NewHeader(t, length), bit) == bit * GC_SHIFT + length * 32 + TypeBits(t)
  {
    hide And, Or;
    Pow2Values();
    KeepAll(length, 24);
    OrDisjoint(length, TypeBits(t), 5);
    var h := NewHeader(t, length);
    OrDisjoint(bit, h, 29);
    OrComm(h, bit * GC_SHIFT);
  }

  /** Packing a type and a length and unpacking them again gives them back,
      whatever GC flag bits are set in between. */
  lemma HeaderRoundTrip(t: HeapType, length: nat, bit: nat)
    requires length <= MAX_OBJECT_CELLS && bit < 256
    ensures HeaderType(NewHeader(t, length)) == Some(t)
    ensures HeaderLength(NewHeader(t, length)) == length
    ensures HeaderType(SetGcBit(NewHeader(t, length), bit)) == Some(t)
    ensures HeaderLength(SetGcBit(NewHeader(t, length), bit)) == length
  {
    hide And, Or;
    HeaderSum(t, length, bit);
    HeaderFields(NewHeader(t, length));
    HeaderFields(SetGcBit(NewHeader(t, length), bit));
  }

  /** A header the mutator can build is below 2^37, so the address it would have
      as a forwarding marker is too: with the reservation at or above 2^37 no
      header is ever taken for a marker into it. */
  lemma HeaderNeverForwardsIntoHeap(t: HeapType, length: nat, bit: nat, base: nat)
    requires length <= MAX_OBJECT_CELLS && bit < 256 && base >= 0x20_0000_0000
    ensures var k := LispClassify(SetGcBit(NewHeader(t, length), bit));
            k.Forwarded? ==> k.addr < base
  {
    hide And, Or;
    HeaderSum(t, length, bit);
    LispArith(SetGcBit(NewHeader(t, length), bit), 0);
  }

  /** With flag bits below `flags`, the header of a `t` of this length classifies as a marker
      into the `size` bytes from `base`. */
  predicate HeaderHits(t: HeapType, length: nat, bit: nat, flags: nat, base: nat, size: nat) {
    && length <= MAX_OBJECT_CELLS && bit < flags <= 256
    && var k := LispClassify(SetGcBit(NewHeader(t, length), bit)); k.Forwarded? && base <= k.addr < base + size
  }

  /** Only a `Float` header looks like a marker, and it does for every length and all flags. */
  lemma FloatHeaderAliasesForward(t: HeapType, length: nat, bit: nat)
    requires length <= MAX_OBJECT_CELLS && bit < 256
    ensures LispClassify(SetGcBit(NewHeader(t, length), bit)).Forwarded? <==> t == Float
    ensures t == Float ==> LispClassify(SetGcBit(NewHeader(t, length), bit)).addr == bit * GC_SHIFT + length * 32
  {
    hide And, Or;
    HeaderSum(t, length, bit);
    LispArith(SetGcBit(NewHeader(t, length), bit), 0);
  }

  /** Where a header can be taken for a marker into the reservation: exactly if that begins below
      the end of the addresses headers can spell, 2^29 for each combination of flags. */
  lemma HeaderAliasIff(flags: nat, base: nat, size: nat)
    requires 1 <= flags <= 256 && base % 8 == 0 && size >= 32
    ensures (exists t, length: nat, bit: nat :: HeaderHits(t, length, bit, flags, base, size)) <==>
              base <= flags * GC_SHIFT - 32
  {
    hide And, Or, LispClassify, SetGcBit, NewHeader;
    if base <= flags * GC_SHIFT - 32 {
      var m := (base + 31) / 32 * 32;
      var bit, length := m / GC_SHIFT, m % GC_SHIFT / 32;
      assert m <= flags * GC_SHIFT - 32 && m == bit * GC_SHIFT + length * 32 && bit < flags;
      FloatHeaderAliasesForward(Float, length, bit);
      assert HeaderHits(Float, length, bit, flags, base, size);
    }
    forall t, length: nat, bit: nat | HeaderHits(t, length, bit, flags, base, size)
      ensures base <= flags * GC_SHIFT - 32 {
      FloatHeaderAliasesForward(t, length, bit);
      assert bit * GC_SHIFT + length * 32 <= (flags - 1) * GC_SHIFT + GC_SHIFT - 32;
    }
  }

  /** What a header decoder makes of a marker: a type it panics on, unless the target lies on a
      multiple of 32 bytes; then a `Float` whose length comes out of the address. */
  lemma MarkerAsHeader(a: u64)
    requires Aligned(a)
    ensures HeaderType(LispForward(a)) == if a % 32 == 0 then Some(Float) else None
    ensures a % 32 == 0 ==> LispHeaderLayout(LispForward(a)) == ObjectLayout(1 + a / 32 % 0x100_0000, 1, 2)
  {
    hide And, Or;
    LispArith(0, a);
    HeaderFields(a + 7);
  }

  // -- Which cells are words ------------------------------------------------

  /** With type code `code` and `n` payload cells the cell at offset `i` holds a word: all payload cells of
      symbols, vectors, ratios, complexes and others, two of a function, four of a bignum, one of a
      float, none of strings and foreign blocks. */
  predicate LispWord(code: nat, n: nat, i: nat) {
    if code == 0 || code == 1 || code == 5 || code == 8 || code == 9 then 1 <= i <= n
    else if code == 2 then i == 3 || i == 4
    else if code == 6 then 1 <= i <= 4
    else code == 7 && i == 1
  }

  /** The layout of a Lisp object, read off its header as a number: the type code in the low five
      bits, the length in the next twenty-four, flags above. Codes beyond nine do not decode. */
  lemma LispFields(bit: nat, n: nat, code: nat)
    requires n <= MAX_OBJECT_CELLS && code < 32 && bit < 0x8_0000_0000
    ensures bit * GC_SHIFT + n * 32 + code < TWO_64
    ensures var (l, h) := (LispLayout(), bit * GC_SHIFT + n * 32 + code);
      && (l.decodes(h) <==> code <= 9)
      && (code <= 9 ==> l.headerLayout(h).totalCells == 1 + n)
      && forall i: nat :: l.headerLayout(h).ptrStart <= i < l.headerLayout(h).ptrEnd <==> LispWord(code, n, i)
  {
    hide And, Or;
    var h := bit * GC_SHIFT + n * 32 + code;
    assert h < TWO_64 && h % 32 == code && (h / 32) % 0x100_0000 == n by { HeaderParts(bit, n, code); }
    HeaderFields(h);
  }

  lemma HeaderParts(bit: nat, n: nat, code: nat)
    requires n <= MAX_OBJECT_CELLS && code < 32 && bit < 0x8_0000_0000
    ensures var h := bit * GC_SHIFT + n * 32 + code; h < TWO_64 && h % 32 == code && (h / 32) % 0x100_0000 == n
  {
    var h := bit * GC_SHIFT + n * 32 + code;
    assert h == 32 * (bit * 0x100_0000 + n) + code;
    assert h / 32 == bit * 0x100_0000 + n;
  }

  /** A Tiny header is the number of payload cells, all of them words. */
  lemma TinyFields(n: u64, i: nat)
    ensures var l := TinyLayout();
      && l.decodes(n) && l.headerLayout(n).totalCells == 1 + n
      && (l.headerLayout(n).ptrStart <= i < l.headerLayout(n).ptrEnd <==> 1 <= i <= n)
  {
  }
}
