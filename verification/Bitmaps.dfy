/** The packed side tables of the heap and the simple maps they stand for.

    `StartTable` packs two bits per cell, 32 cells to a word: `01` a
    header-bearing object starts here, `11` a cons starts here, `00` nothing
    does. `MarkBitmap` packs one bit per cell, 64 cells to a word. */
module Bitmaps {
  import opened Bits
  import opened Pages

  const STARTS_WORDS_PER_PAGE: nat := 256
  const MARK_WORDS_PER_PAGE: nat := 128

  datatype Start = NoStart | HeaderStart | ConsStart

  // -- The start table ------------------------------------------------------

  function StartInWord(w: u64, k: nat): Start {
    if !Bit(w, 2 * k) then NoStart else if Bit(w, 2 * k + 1) then ConsStart else HeaderStart
  }

  /** The map from cells to starts that `words` packs. */
  function Starts(words: seq<u64>): (s: seq<Start>)
    ensures |s| == 32 * |words|
  {
    seq(32 * |words|, i requires 0 <= i < 32 * |words| => StartInWord(words[i / 32], i % 32))
  }

  /** `pair << 2k` for the two pairs the allocator writes. */
  function HeaderPair(k: nat): (p: nat)
    requires k < 32
    ensures p < TWO_64
  {
    PairFits(k);
    Pow2(2 * k)
  }

  function ConsPair(k: nat): (p: nat)
    requires k < 32
    ensures p < TWO_64
  {
    PairFits(k);
    3 * Pow2(2 * k)
  }

  lemma {:induction false} PairFits(k: nat)
    requires k < 32
    ensures 4 * Pow2(2 * k) <= TWO_64
    decreases 32 - k
  {
    if k == 31 {
      Pow2Values();
    } else {
      PairFits(k + 1);
      assert Pow2(2 * k + 2) == 2 * Pow2(2 * k + 1);
    }
  }

  lemma {:induction false} BitThree(j: nat, k: nat)
    ensures Bit(3 * Pow2(j), k) == (k == j || k == j + 1)
    decreases k
  {
    if j > 0 {
      if k > 0 { BitThree(j - 1, k - 1); }
    } else if k > 1 {
      BitZero(k - 2);
    }
  }

  /** Or-ing a pair in changes cell `k` of the word and no other. */
  lemma OrPair(w: u64, k: nat, j: nat)
    requires k < 32
    ensures Or(w, HeaderPair(k)) < TWO_64 && Or(w, ConsPair(k)) < TWO_64
    ensures StartInWord(Or(w, HeaderPair(k)), j) ==
            if j != k || StartInWord(w, j) == ConsStart then StartInWord(w, j)
            else if Bit(w, 2 * k + 1) then ConsStart else HeaderStart
    ensures StartInWord(Or(w, ConsPair(k)), j) == if j != k then StartInWord(w, j) else ConsStart
  {
    Pow2Values();
    OrBound(w, HeaderPair(k), 64);
    OrBound(w, ConsPair(k), 64);
    hide Or, Bit;
    BitOr(w, HeaderPair(k), 2 * j);
    BitOr(w, HeaderPair(k), 2 * j + 1);
    BitOr(w, ConsPair(k), 2 * j);
    BitOr(w, ConsPair(k), 2 * j + 1);
    BitPow2(2 * k, 2 * j);
    BitPow2(2 * k, 2 * j + 1);
    BitThree(2 * k, 2 * j);
    BitThree(2 * k, 2 * j + 1);
  }

  /** No word holds the pair `10`, which no writer produces. */
  ghost predicate WellPaired(words: seq<u64>) {
    forall i, k | 0 <= i < |words| && 0 <= k < 32 :: Bit(words[i], 2 * k + 1) ==> Bit(words[i], 2 * k)
  }

  class StartTable {
    const bits: array<u64>

    constructor (nPages: nat)
      ensures fresh(bits) && bits.Length == 256 * nPages && Valid()
      ensures Map() == seq(32 * bits.Length, i => NoStart)
    {
      bits := new u64[256 * nPages](_ => 0);
      new;
      hide Bit;
      forall k: nat ensures !Bit(0, k) { BitZero(k); }
    }

    ghost predicate Valid() reads bits { WellPaired(bits[..]) }

    ghost function Map(): seq<Start> reads bits { Starts(bits[..]) }

    method IsStart(c: nat) returns (b: bool)
      requires c < 32 * bits.Length
      ensures b == (Map()[c] != NoStart)
    {
      b := Bit(bits[c / 32], (c % 32) * 2);
    }

    method IsConsStart(c: nat) returns (b: bool)
      requires c < 32 * bits.Length
      ensures b == (Map()[c] == ConsStart)
    {
      b := Bit(bits[c / 32], (c % 32) * 2) && Bit(bits[c / 32], (c % 32) * 2 + 1);
    }

    /** `set_start_bit_at`. A cell that already is a cons start stays one. */
    method SetStart(c: nat)
      requires Valid() && c < 32 * bits.Length
      modifies bits
      ensures Valid()
      ensures Map() == old(Map())[c := if old(Map())[c] == ConsStart then ConsStart else HeaderStart]
    {
      ghost var was := bits[..];
      var w, k := bits[c / 32], c % 32;
      OrPair(w, k, k);
      var w': u64 := Or(w, HeaderPair(k));
      bits[c / 32] := w';
      assert bits[..] == was[c / 32 := w'];
      SetInWord(was, c, w', if Starts(was)[c] == ConsStart then ConsStart else HeaderStart) by {
        forall j | 0 <= j < 32 ensures StartInWord(Or(w, HeaderPair(k)), j) ==
          if j == k then (if Starts(was)[c] == ConsStart then ConsStart else HeaderStart) else StartInWord(w, j)
        {
          OrPair(w, k, j);
        }
      }
      PairsKept(w, k);
    }

    /** `set_cons_start_bit_at`. */
    method SetConsStart(c: nat)
      requires Valid() && c < 32 * bits.Length
      modifies bits
      ensures Valid()
      ensures Map() == old(Map())[c := ConsStart]
    {
      ghost var was := bits[..];
      var w, k := bits[c / 32], c % 32;
      OrPair(w, k, k);
      var w': u64 := Or(w, ConsPair(k));
      bits[c / 32] := w';
      assert bits[..] == was[c / 32 := w'];
      SetInWord(was, c, w', ConsStart) by {
        forall j | 0 <= j < 32
          ensures StartInWord(Or(w, ConsPair(k)), j) == if j == k then ConsStart else StartInWord(w, j)
        {
          OrPair(w, k, j);
        }
      }
      PairsKept(w, k);
    }

    /** `clear_page_start_bits`: the page's 8192 cells and nothing else. */
    method ClearPage(page: nat)
      requires Valid() && 256 * (page + 1) <= bits.Length
      modifies bits
      ensures Valid()
      ensures Map() == ClearedOn(old(Map()), page, NoStart)
    {
      for w := 256 * page to 256 * (page + 1)
        invariant forall i | 0 <= i < bits.Length ::
          bits[i] == if 256 * page <= i < w then 0 else old(bits[i])
      {
        bits[w] := 0;
      }
      hide Bit;
      forall k: nat ensures !Bit(0, k) { BitZero(k); }
    }
  }

  /** `m` with every cell of `page` set to `v`. */
  function ClearedOn<T>(m: seq<T>, page: nat, v: T): (r: seq<T>)
    ensures |r| == |m|
    ensures forall i | 0 <= i < |m| :: r[i] == if i / PAGE_CELLS == page then v else m[i]
  {
    seq(|m|, i requires 0 <= i < |m| => if i / PAGE_CELLS == page then v else m[i])
  }

  lemma PairsKept(w: u64, k: nat)
    requires k < 32
    requires forall j | 0 <= j < 32 :: Bit(w, 2 * j + 1) ==> Bit(w, 2 * j)
    ensures forall j | 0 <= j < 32 :: Bit(Or(w, HeaderPair(k)), 2 * j + 1) ==> Bit(Or(w, HeaderPair(k)), 2 * j)
    ensures forall j | 0 <= j < 32 :: Bit(Or(w, ConsPair(k)), 2 * j + 1) ==> Bit(Or(w, ConsPair(k)), 2 * j)
  {
    hide Or, Bit;
    forall j | 0 <= j < 32
      ensures Bit(Or(w, HeaderPair(k)), 2 * j + 1) ==> Bit(Or(w, HeaderPair(k)), 2 * j)
      ensures Bit(Or(w, ConsPair(k)), 2 * j + 1) ==> Bit(Or(w, ConsPair(k)), 2 * j)
    {
      BitOr(w, HeaderPair(k), 2 * j);
      BitOr(w, HeaderPair(k), 2 * j + 1);
      BitOr(w, ConsPair(k), 2 * j);
      BitOr(w, ConsPair(k), 2 * j + 1);
      BitPow2(2 * k, 2 * j);
      BitPow2(2 * k, 2 * j + 1);
      BitThree(2 * k, 2 * j);
      BitThree(2 * k, 2 * j + 1);
    }
  }

  /** Replacing one word so that only its cell `c` changes, to `v`, updates the map at `c`. */
  lemma SetInWord(words: seq<u64>, c: nat, w: u64, v: Start)
    requires c < 32 * |words|
    requires forall j | 0 <= j < 32 :: StartInWord(w, j) == if j == c % 32 then v else StartInWord(words[c / 32], j)
    ensures Starts(words[c / 32 := w]) == Starts(words)[c := v]
  {
    hide Bit, StartInWord;
  }

  // -- The mark bitmap ------------------------------------------------------

  function Marks(words: seq<u64>): (s: seq<bool>)
    ensures |s| == 64 * |words|
  {
    seq(64 * |words|, i requires 0 <= i < 64 * |words| => Bit(words[i / 64], i % 64))
  }

  class MarkBitmap {
    const bits: array<u64>

    constructor (nPages: nat)
      ensures fresh(bits) && bits.Length == 128 * nPages
      ensures Map() == seq(64 * bits.Length, i => false)
    {
      bits := new u64[128 * nPages](_ => 0);
      new;
      hide Bit;
      forall k: nat ensures !Bit(0, k) { BitZero(k); }
    }

    ghost function Map(): seq<bool> reads bits { Marks(bits[..]) }

    method IsMarked(c: nat) returns (b: bool)
      requires c < 64 * bits.Length
      ensures b == Map()[c]
    {
      b := Bit(bits[c / 64], c % 64);
    }

    /** Marks `c` and reports whether it was marked before. */
    method MarkCell(c: nat) returns (prev: bool)
      requires c < 64 * bits.Length
      modifies bits
      ensures prev == old(Map())[c]
      ensures Map() == old(Map())[c := true]
    {
      ghost var was := bits[..];
      var w, k := bits[c / 64], c % 64;
      prev := Bit(w, k);
      OneFits(k);
      OrBound(w, Pow2(k), 64);
      var w': u64 := Or(w, Pow2(k));
      bits[c / 64] := w';
      assert bits[..] == was[c / 64 := w'];
      forall j | 0 <= j < 64 ensures Bit(Or(w, Pow2(k)), j) == (j == k || Bit(w, j)) {
        BitOr(w, Pow2(k), j);
        BitPow2(k, j);
      }
      hide Bit, Or;
      assert Marks(bits[..]) == Marks(was)[c := true];
    }

    method ClearPage(page: nat)
      requires 128 * (page + 1) <= bits.Length
      modifies bits
      ensures Map() == ClearedOn(old(Map()), page, false)
    {
      for w := 128 * page to 128 * (page + 1)
        invariant forall i | 0 <= i < bits.Length ::
          bits[i] == if 128 * page <= i < w then 0 else old(bits[i])
      {
        bits[w] := 0;
      }
      hide Bit;
      forall k: nat ensures !Bit(0, k) { BitZero(k); }
    }

    /** Population count of one page's mark words: the number of marked cells on
        the page, which fits the 16-bit counter it is stored in. */
    method CountPage(page: nat) returns (count: nat)
      requires 128 * (page + 1) <= bits.Length
      ensures count == CountTrue(Map()[PAGE_CELLS * page..PAGE_CELLS * (page + 1)])
      ensures count <= 0xFFFF
    {
      count := 0;
      for w := 128 * page to 128 * (page + 1)
        invariant count == CountTrue(Map()[64 * (128 * page)..64 * w])
      {
        ghost var m := Map();
        count := count + CountOnes(bits[w]);
        WordCount(bits[..], w);
        assert m[64 * (128 * page)..64 * (w + 1)] == m[64 * (128 * page)..64 * w] + m[64 * w..64 * (w + 1)];
        CountConcat(m[64 * (128 * page)..64 * w], m[64 * w..64 * (w + 1)]);
      }
      CountBound(Map()[PAGE_CELLS * page..PAGE_CELLS * (page + 1)]);
    }
  }

  lemma OneFits(k: nat)
    requires k < 64
    ensures Pow2(k) < TWO_64 && Pow2(64) == TWO_64
    decreases 64 - k
  {
    Pow2Values();
    if k < 63 { OneFits(k + 1); }
  }

  /** The number of `true` entries. */
  function CountTrue(m: seq<bool>): nat {
    if m == [] then 0 else (if m[0] then 1 else 0) + CountTrue(m[1..])
  }

  lemma {:induction false} CountConcat(a: seq<bool>, b: seq<bool>)
    ensures CountTrue(a + b) == CountTrue(a) + CountTrue(b)
  {
    if a == [] {
      assert a + b == b;
    } else {
      assert (a + b)[1..] == a[1..] + b;
      CountConcat(a[1..], b);
    }
  }

  lemma {:induction false} CountBound(m: seq<bool>)
    ensures CountTrue(m) <= |m|
  {
    if m != [] { CountBound(m[1..]); }
  }

  /** The population count of a word counts its set bits. */
  lemma {:induction false} OnesAreBits(x: nat, m: seq<bool>)
    requires x < Pow2(|m|)
    requires forall j | 0 <= j < |m| :: m[j] == Bit(x, j)
    ensures CountOnes(x) == CountTrue(m)
    decreases |m|
  {
    if m != [] {
      forall j | 0 <= j < |m[1..]| ensures m[1..][j] == Bit(x / 2, j) { assert m[1..][j] == m[j + 1]; }
      OnesAreBits(x / 2, m[1..]);
      assert m[0] == Bit(x, 0);
    }
  }

  lemma WordCount(words: seq<u64>, w: nat)
    requires w < |words|
    ensures CountOnes(words[w]) == CountTrue(Marks(words)[64 * w..64 * (w + 1)])
  {
    Pow2Values();
    hide Bit, CountOnes;
    OnesAreBits(words[w], Marks(words)[64 * w..64 * (w + 1)]);
  }
}
