/** Bitwise operations of 64-bit machine words, defined on their numeric value.

    Words are naturals below 2^64. `And` and `Or` are the usual bit-by-bit
    operations; shifts by a constant are multiplication and division by a power
    of two. The lemmas turn the mask idioms of the collector into arithmetic. */
module Bits {

  const TWO_64: nat := 0x1_0000_0000_0000_0000

  type u64 = x: nat | x < TWO_64

  function Pow2(k: nat): (p: nat)
    ensures p >= 1
  {
    if k == 0 then 1 else 2 * Pow2(k - 1)
  }

  function And(x: nat, y: nat): (r: nat)
    ensures r <= x && r <= y
    decreases x
  {
    if x == 0 || y == 0 then 0 else
      (if x % 2 == 1 && y % 2 == 1 then 1 else 0) + 2 * And(x / 2, y / 2)
  }

  function Or(x: nat, y: nat): nat
    decreases x + y
  {
    if x == 0 then y else if y == 0 then x else
      (if x % 2 == 1 || y % 2 == 1 then 1 else 0) + 2 * Or(x / 2, y / 2)
  }

  /** The number of set bits of `x`. */
  function CountOnes(x: nat): nat {
    if x == 0 then 0 else x % 2 + CountOnes(x / 2)
  }

  /** Bit `k` of `x`, i.e. `(x >> k) & 1 != 0`. */
  predicate Bit(x: nat, k: nat) {
    if k == 0 then x % 2 == 1 else Bit(x / 2, k - 1)
  }

  // -- One step of And and Or ----------------------------------------------

  lemma AndStep(x: nat, y: nat)
    ensures And(x, y) == (if x % 2 == 1 && y % 2 == 1 then 1 else 0) + 2 * And(x / 2, y / 2)
  {
    if x == 0 {
      assert And(x, y) == 0;
      assert And(x / 2, y / 2) == 0;
    } else if y == 0 {
      assert And(x, y) == 0;
      assert And(x / 2, y / 2) == 0;
    }
  }

  lemma OrStep(x: nat, y: nat)
    ensures Or(x, y) == (if x % 2 == 1 || y % 2 == 1 then 1 else 0) + 2 * Or(x / 2, y / 2)
  {
  }

  // -- Masks ---------------------------------------------------------------

  /** Masking with `2^k - 1` keeps the remainder modulo `2^k`. */
  lemma {:induction false} AndLowMask(x: nat, k: nat)
    ensures And(x, Pow2(k) - 1) == x % Pow2(k)
  {
    if k == 0 {
      assert And(x, 0) == 0;
    } else {
      var p := Pow2(k - 1);
      AndStep(x, 2 * p - 1);
      AndLowMask(x / 2, k - 1);
      assert (2 * p - 1) / 2 == p - 1 && (2 * p - 1) % 2 == 1;
      ModHalf(x, p);
    }
  }

  /** A full-width mask keeps everything. */
  lemma KeepAll(x: nat, k: nat)
    requires x < Pow2(k)
    ensures And(x, Pow2(k) - 1) == x
  {
    AndLowMask(x, k);
    DivModUnique(x, Pow2(k), 0, x);
  }

  lemma ModHalf(x: nat, p: nat)
    requires p >= 1
    ensures x % (2 * p) == x % 2 + 2 * ((x / 2) % p)
  {
    var q, r := (x / 2) / p, (x / 2) % p;
    assert x / 2 == p * q + r;
    assert x == 2 * (x / 2) + x % 2;
    assert x == (2 * p) * q + (2 * r + x % 2) by {
      assert 2 * (p * q + r) == (2 * p) * q + 2 * r;
    }
    DivModUnique(x, 2 * p, q, 2 * r + x % 2);
  }

  lemma MulGrows(d: nat, z: int)
    ensures z >= 1 ==> d * z >= d
    ensures z <= -1 ==> d * z <= -(d as int)
  {
    if z >= 1 {
      assert d * z == d * (z - 1) + d;
    } else if z <= -1 {
      assert d * z == d * (z + 1) - d;
    }
  }

  lemma DivModUnique(x: nat, d: nat, q: nat, r: nat)
    requires d >= 1 && r < d && x == d * q + r
    ensures x / d == q && x % d == r
  {
    var q' := x / d;
    assert d * q' <= x < d * q' + d;
    assert d * (q - q') == d * q - d * q';
    MulGrows(d, q - q');
  }

  /** Masking with an even mask clears the low bit. */
  lemma AndEven(x: nat, y: nat)
    ensures And(x, 2 * y) == 2 * And(x / 2, y)
  {
    AndStep(x, 2 * y);
    assert (2 * y) % 2 == 0 && (2 * y) / 2 == y;
  }

  /** Or-ing a value below `2^k` into a multiple of `2^k` adds them. */
  lemma {:induction false} OrDisjoint(h: nat, t: nat, k: nat)
    requires t < Pow2(k)
    ensures Or(h * Pow2(k), t) == h * Pow2(k) + t
  {
    if k == 0 {
      assert t == 0;
    } else {
      var p := Pow2(k - 1);
      assert h * Pow2(k) == 2 * (h * p);
      OrStep(h * Pow2(k), t);
      OrDisjoint(h, t / 2, k - 1);
    }
  }

  // -- Single bits ---------------------------------------------------------

  /** Or acts bit by bit. */
  lemma {:induction false} BitOr(x: nat, y: nat, k: nat)
    ensures Bit(Or(x, y), k) == (Bit(x, k) || Bit(y, k))
    decreases k
  {
    OrStep(x, y);
    if k > 0 {
      BitOr(x / 2, y / 2, k - 1);
    }
  }

  /** `1 << j` has exactly bit `j` set. */
  lemma {:induction false} BitPow2(j: nat, k: nat)
    ensures Bit(Pow2(j), k) == (j == k)
    decreases k
  {
    if j == 0 && k > 0 {
      BitZero(k - 1);
    } else if j > 0 && k > 0 {
      BitPow2(j - 1, k - 1);
    }
  }

  lemma {:induction false} BitZero(k: nat)
    ensures !Bit(0, k)
  {
    if k > 0 { BitZero(k - 1); }
  }

  /** Or of two words below `2^k` stays below `2^k`. */
  lemma {:induction false} OrBound(x: nat, y: nat, k: nat)
    requires x < Pow2(k) && y < Pow2(k)
    ensures Or(x, y) < Pow2(k)
    decreases k
  {
    OrStep(x, y);
    if k > 0 { OrBound(x / 2, y / 2, k - 1); }
  }

  lemma Pow2Step4(k: nat)
    ensures Pow2(k + 4) == 16 * Pow2(k)
  {
    assert Pow2(k + 4) == 2 * Pow2(k + 3) && Pow2(k + 3) == 2 * Pow2(k + 2);
    assert Pow2(k + 2) == 2 * Pow2(k + 1);
  }

  /** The powers of two the masks are made of. */
  lemma Pow2Values()
    ensures Pow2(1) == 2 && Pow2(2) == 4 && Pow2(3) == 8 && Pow2(5) == 0x20
    ensures Pow2(24) == 0x100_0000 && Pow2(29) == 0x2000_0000
    ensures Pow2(61) == 0x2000_0000_0000_0000 && Pow2(62) == 0x4000_0000_0000_0000
    ensures Pow2(64) == TWO_64
  {
    assert Pow2(1) == 2 && Pow2(2) == 4 && Pow2(3) == 8 && Pow2(4) == 16 && Pow2(5) == 32;
    Pow2Step4(4); Pow2Step4(8); Pow2Step4(12); Pow2Step4(16); Pow2Step4(20); Pow2Step4(24);
    assert Pow2(29) == 2 * Pow2(28);
    Pow2Step4(28); Pow2Step4(32); Pow2Step4(36); Pow2Step4(40); Pow2Step4(44);
    Pow2Step4(48); Pow2Step4(52); Pow2Step4(56); Pow2Step4(60);
    assert Pow2(61) == 2 * Pow2(60) && Pow2(62) == 2 * Pow2(61);
  }
}
