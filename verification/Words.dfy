/** 64-bit machine words, bit by bit.

    The kernel and the compat code work on `unsigned long` words with shifts, masks and byte
    swaps.  This module gives every such expression its meaning as a predicate on bit positions
    0..63 and hides the bit-vector arithmetic from its clients. */
module Words {

  const ALL_ONES: bv64 := 0xFFFF_FFFF_FFFF_FFFF

  /** The bit of `w` at bit-vector position `k`. */
  predicate BitAt(w: bv64, k: bv64)
    requires k < 64
  {
    (w >> k) & 1 == 1
  }

  function Ix(k: nat): bv64
    requires k < 64
  {
    k as bv64
  }

  /** Bit `k` of `w`, counted from the least significant bit. */
  predicate Bit(w: bv64, k: nat)
    requires k < 64
  {
    IxValue(k);
    BitAt(w, Ix(k))
  }

  function Or(v: bv64, w: bv64): bv64 { v | w }

  function And(v: bv64, w: bv64): bv64 { v & w }

  function AndNot(v: bv64, w: bv64): bv64 { v & !w }

  /** `1UL << k` */
  function One(k: bv64): bv64
    requires k < 64
  {
    1 << k
  }

  /** `~0UL << k` */
  function OnesFrom(k: bv64): bv64
    requires k < 64
  {
    ALL_ONES << k
  }

  /** `~0UL >> (64 - k)` */
  function OnesBelow(k: bv64): bv64
    requires 0 < k < 64
  {
    ALL_ONES >> (64 - k)
  }

  /** `ext2_swab`: the eight bytes of `y` in the opposite order. */
  function Swab(y: bv64): bv64 {
    ((y & 0x0000_0000_0000_00FF) << 56) | ((y & 0x0000_0000_0000_FF00) << 40) |
    ((y & 0x0000_0000_00FF_0000) << 24) | ((y & 0x0000_0000_FF00_0000) << 8) |
    ((y & 0x0000_00FF_0000_0000) >> 8)  | ((y & 0x0000_FF00_0000_0000) >> 24) |
    ((y & 0x00FF_0000_0000_0000) >> 40) | ((y & 0xFF00_0000_0000_0000) >> 56)
  }

  // ---------------------------------------------------------------- positions

  lemma RawValue(k: nat)
    requires k < 64
    ensures (k as bv64) as nat == k && (k as bv64) < 64
  {
  }

  lemma IxValue(k: nat)
    requires k < 64
    ensures Ix(k) as nat == k && Ix(k) < 64
  {
    RawValue(k);
  }

  lemma SmallOrder(a: bv64, b: bv64)
    requires a < 64 && b < 64
    ensures (a < b) == (a as nat < b as nat)
  {
  }

  lemma SmallSum(a: bv64, b: bv64)
    requires a < 64 && b < 64
    ensures (a + b) as nat == a as nat + b as nat
  {
  }

  /** Positions as numbers and positions as bit vectors are ordered alike. */
  lemma IxOrder(j: nat, k: nat)
    requires j < 64 && k < 64
    ensures Ix(j) < 64 && Ix(k) < 64
    ensures (Ix(j) < Ix(k)) == (j < k)
    ensures (Ix(j) == Ix(k)) == (j == k)
  {
    IxValue(j);
    IxValue(k);
    SmallOrder(Ix(j), Ix(k));
    SmallOrder(Ix(k), Ix(j));
  }

  // ---------------------------------------------------------------- bit-vector facts

  lemma OrOneAt(w: bv64, j: bv64, k: bv64)
    requires j < 64 && k < 64
    ensures BitAt(Or(w, One(j)), k) == (k == j || BitAt(w, k))
  {
  }

  lemma AndNotOneAt(w: bv64, j: bv64, k: bv64)
    requires j < 64 && k < 64
    ensures BitAt(AndNot(w, One(j)), k) == (k != j && BitAt(w, k))
  {
  }

  lemma OnesFromAt(w: bv64, j: bv64, k: bv64)
    requires j < 64 && k < 64
    ensures BitAt(And(w, OnesFrom(j)), k) == (j <= k && BitAt(w, k))
  {
  }

  lemma OnesBelowAt(w: bv64, j: bv64, k: bv64)
    requires 0 < j < 64 && k < 64
    ensures BitAt(And(w, OnesBelow(j)), k) == (k < j && BitAt(w, k))
  {
  }

  lemma ConstantsAt(k: bv64)
    requires k < 64
    ensures BitAt(ALL_ONES, k) && !BitAt(0, k)
  {
  }

  lemma LowestSetAt(x0: bv64) returns (k: bv64)
    requires x0 != 0
    ensures k < 64 && BitAt(x0, k)
  {
    var x := x0;
    k := 0;
    if x & 0xFFFF_FFFF == 0 { k := 32; x := x >> 32; }
    if x & 0xFFFF == 0 { k := k + 16; x := x >> 16; }
    if x & 0xFF == 0 { k := k + 8; x := x >> 8; }
    if x & 0xF == 0 { k := k + 4; x := x >> 4; }
    if x & 0x3 == 0 { k := k + 2; x := x >> 2; }
    if x & 0x1 == 0 { k := k + 1; }
  }

  lemma XorAt(v: bv64, w: bv64, k: bv64)
    requires k < 64
    ensures BitAt(v ^ w, k) == (BitAt(v, k) != BitAt(w, k))
    ensures (v ^ w == 0) == (v == w)
  {
  }

  // ---------------------------------------------------------------- the same facts on numbered bits

  /** `w |= 1UL << j` sets bit j and nothing else. */
  lemma {:induction false} OrOne(w: bv64, j: nat, k: nat)
    requires j < 64 && k < 64
    ensures Ix(j) < 64
    ensures Bit(Or(w, One(Ix(j))), k) == (k == j || Bit(w, k))
  {
    IxOrder(j, k);
    hide BitAt, Or, One, Ix;
    OrOneAt(w, Ix(j), Ix(k));
  }

  /** `w &= ~(1UL << j)` clears bit j and nothing else. */
  lemma {:induction false} AndNotOne(w: bv64, j: nat, k: nat)
    requires j < 64 && k < 64
    ensures Ix(j) < 64
    ensures Bit(AndNot(w, One(Ix(j))), k) == (k != j && Bit(w, k))
  {
    IxOrder(j, k);
    hide BitAt, AndNot, One, Ix;
    AndNotOneAt(w, Ix(j), Ix(k));
  }

  /** `w & (~0UL << j)` keeps exactly the bits at or above j. */
  lemma {:induction false} AndOnesFrom(w: bv64, j: nat, k: nat)
    requires j < 64 && k < 64
    ensures Ix(j) < 64
    ensures Bit(And(w, OnesFrom(Ix(j))), k) == (j <= k && Bit(w, k))
  {
    IxOrder(j, k);
    IxOrder(k, j);
    hide BitAt, And, OnesFrom, Ix;
    OnesFromAt(w, Ix(j), Ix(k));
  }

  /** `w & (~0UL >> (64 - j))` keeps exactly the bits below j. */
  lemma {:induction false} AndOnesBelow(w: bv64, j: nat, k: nat)
    requires 0 < j < 64 && k < 64
    ensures 0 < Ix(j) < 64
    ensures Bit(And(w, OnesBelow(Ix(j))), k) == (k < j && Bit(w, k))
  {
    IxOrder(j, k);
    IxOrder(k, j);
    IxOrder(0, j);
    assert Ix(0) == 0;
    hide BitAt, And, OnesBelow, Ix;
    OnesBelowAt(w, Ix(j), Ix(k));
  }

  lemma {:induction false} Constants(k: nat)
    requires k < 64
    ensures Bit(ALL_ONES, k) && !Bit(0, k)
  {
    IxValue(k);
    hide BitAt, Ix;
    ConstantsAt(Ix(k));
  }

  /** Every bit-vector position is the position of some number. */
  lemma PositionOf(a: bv64) returns (k: nat)
    requires a < 64
    ensures k < 64 && Ix(k) == a
  {
    SmallOrder(a, 63);
    k := a as nat;
    IxValue(k);
    SmallOrder(a, Ix(k));
    SmallOrder(Ix(k), a);
  }

  /** Two different words differ in some bit. */
  lemma DifferingBit(v: bv64, w: bv64) returns (k: nat)
    requires v != w
    ensures k < 64 && Bit(v, k) != Bit(w, k)
  {
    hide BitAt, Ix;
    XorAt(v, w, 0);
    var a := LowestSetAt(v ^ w);
    XorAt(v, w, a);
    k := PositionOf(a);
  }

  /** A nonzero word has a set bit, so testing `if (tmp)` is testing for one. */
  lemma {:induction false} NonzeroHasBit(w: bv64)
    ensures w != 0 <==> exists k: nat :: k < 64 && Bit(w, k)
  {
    if w != 0 {
      var k := DifferingBit(w, 0);
      Constants(k);
    } else {
      forall k: nat | k < 64
        ensures !Bit(w, k)
      {
        Constants(k);
      }
    }
  }

  lemma {:induction false} SameBits(v: bv64, w: bv64)
    requires forall k: nat :: k < 64 ==> Bit(v, k) == Bit(w, k)
    ensures v == w
  {
    if v != w {
      var k := DifferingBit(v, w);
      assert false;
    }
  }

  // ---------------------------------------------------------------- bytes in memory

  /** The word a little-endian machine reads from eight consecutive bytes. */
  function LittleEndian(b: seq<bv8>): bv64
    requires |b| == 8
  {
    (b[0] as bv64) | (b[1] as bv64 << 8) | (b[2] as bv64 << 16) | (b[3] as bv64 << 24) |
    (b[4] as bv64 << 32) | (b[5] as bv64 << 40) | (b[6] as bv64 << 48) | (b[7] as bv64 << 56)
  }

  /** The word a big-endian machine reads from eight consecutive bytes. */
  function BigEndian(b: seq<bv8>): bv64
    requires |b| == 8
  {
    (b[7] as bv64) | (b[6] as bv64 << 8) | (b[5] as bv64 << 16) | (b[4] as bv64 << 24) |
    (b[3] as bv64 << 32) | (b[2] as bv64 << 40) | (b[1] as bv64 << 48) | (b[0] as bv64 << 56)
  }

  /** The byte swap turns one reading of memory into the other. */
  lemma SwabConvertsEndianness(b: seq<bv8>)
    requires |b| == 8
    ensures Swab(BigEndian(b)) == LittleEndian(b)
  {
  }

  /** The byte swap is its own inverse (hence a bijection) and keeps zero at zero. */
  lemma SwabInvolution(y: bv64)
    ensures Swab(Swab(y)) == y
    ensures Swab(y) == 0 <==> y == 0
  {
  }
}
