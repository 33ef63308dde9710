/** `generic_find_next_le_bit`: the next set bit in little-endian order, found by scanning the words of a
    big-endian 64-bit machine. */
module FindNextBit {
  import opened Words
  import BitmapViews

  /** Bit i of the bitmap in little-endian order: word i / 64, its bytes turned round. */
  predicate LeBit(words: seq<bv64>, i: nat)
    requires i < 64 * |words|
  {
    Bit(Swab(words[i / 64]), i % 64)
  }

  /** `r` is what the search from `offset` below `size` is to return. */
  ghost predicate NextBit(words: seq<bv64>, size: nat, offset: nat, r: nat)
    requires size <= 64 * |words|
  {
    if offset >= size then r == size
    else
      && offset <= r <= size
      && (forall i: nat :: offset <= i < r ==> !LeBit(words, i))
      && (r < size ==> LeBit(words, r))
  }

  /** `__ffs`: the lowest set bit of a word that has one. */
  function Ffs(w: bv64): (k: nat)
    requires w != 0
    ensures k < 64 && Bit(w, k) && forall j: nat :: j < k ==> !Bit(w, j)
  {
    NonzeroHasBit(w);
    FfsFrom(w, 0)
  }

  function FfsFrom(w: bv64, from: nat): (k: nat)
    requires exists k: nat :: from <= k < 64 && Bit(w, k)
    ensures from <= k < 64 && Bit(w, k) && forall j: nat :: from <= j < k ==> !Bit(w, j)
    decreases 64 - from
  {
    if Bit(w, from) then from else FfsFrom(w, from + 1)
  }

  lemma SplitIndex(base: nat, i: nat)
    requires base % 64 == 0 && base <= i < base + 64
    ensures i / 64 == base / 64 && i % 64 == i - base
  {
  }

  /** Word `base / 64` in little-endian order: what is known of its bits is known of the bitmap's. */
  lemma WordBits(words: seq<bv64>, base: nat, i: nat)
    requires base % 64 == 0 && base <= i < base + 64 && base + 64 <= 64 * |words|
    ensures LeBit(words, i) == Bit(Swab(words[base / 64]), i - base)
  {
    SplitIndex(base, i);
  }

  /** `tmp` holds the bits lo..hi-1 of the word at `result`, and nothing else. */
  ghost predicate Holds(words: seq<bv64>, result: nat, lo: nat, hi: nat, tmp: bv64)
  {
    && lo <= hi <= 64
    && result % 64 == 0 && result + 64 <= 64 * |words|
    && forall k: nat :: k < 64 ==> Bit(tmp, k) == (lo <= k < hi && LeBit(words, result + k))
  }

  /** Label `found_middle`: the answer is in `tmp`. */
  lemma {:induction false} FoundMiddle(words: seq<bv64>, size: nat, offset: nat, result: nat, lo: nat, hi: nat, tmp: bv64)
    requires size <= 64 * |words|
    requires Holds(words, result, lo, hi, tmp) && tmp != 0
    requires offset < size && result + hi <= size
    requires offset <= result + lo && forall i: nat :: offset <= i < result + lo ==> !LeBit(words, i)
    ensures NextBit(words, size, offset, result + Ffs(tmp))
  {
    hide LeBit, Bit, FfsFrom;
    var k := Ffs(tmp);
    forall i: nat | offset <= i < result + k
      ensures !LeBit(words, i)
    {
      if i >= result + lo {
        assert !Bit(tmp, i - result);
      }
    }
  }

  /** No bit in `tmp`: the search has passed the positions it holds. */
  lemma {:induction false} NothingHere(words: seq<bv64>, result: nat, lo: nat, hi: nat, tmp: bv64, i: nat)
    requires Holds(words, result, lo, hi, tmp) && tmp == 0
    requires result + lo <= i < result + hi
    ensures !LeBit(words, i)
  {
    hide LeBit, Bit;
    Constants(i - result);
    assert Bit(tmp, i - result) == (lo <= i - result < hi && LeBit(words, result + (i - result)));
  }

  /** `ext2_swabp(p)` */
  lemma {:induction false} SwabHolds(words: seq<bv64>, result: nat)
    requires result % 64 == 0 && result + 64 <= 64 * |words|
    ensures Holds(words, result, 0, 64, Swab(words[result / 64]))
  {
    hide LeBit, Bit, Swab;
    forall k: nat | k < 64
      ensures Bit(Swab(words[result / 64]), k) == LeBit(words, result + k)
    {
      WordBits(words, result, result + k);
    }
  }

  /** `tmp &= ~0UL << offset` */
  lemma {:induction false} HeadMask(words: seq<bv64>, result: nat, hi: nat, tmp: bv64, lo: nat)
    requires lo < 64 && lo <= hi && Holds(words, result, 0, hi, tmp)
    ensures Ix(lo) < 64 && Holds(words, result, lo, hi, And(tmp, OnesFrom(Ix(lo))))
  {
    hide LeBit, Bit, And, OnesFrom, Ix;
    AndOnesFrom(tmp, lo, 0);
    forall k: nat | k < 64
      ensures Bit(And(tmp, OnesFrom(Ix(lo))), k) == (lo <= k < hi && LeBit(words, result + k))
    {
      AndOnesFrom(tmp, lo, k);
    }
  }

  /** `tmp &= ~0UL >> (64 - size)` */
  lemma {:induction false} TailMask(words: seq<bv64>, result: nat, lo: nat, tmp: bv64, hi: nat)
    requires 0 < hi < 64 && lo <= hi && Holds(words, result, lo, 64, tmp)
    ensures 0 < Ix(hi) < 64 && Holds(words, result, lo, hi, And(tmp, OnesBelow(Ix(hi))))
  {
    hide LeBit, Bit, And, OnesBelow, Ix;
    AndOnesBelow(tmp, hi, 0);
    forall k: nat | k < 64
      ensures Bit(And(tmp, OnesBelow(Ix(hi))), k) == (lo <= k < hi && LeBit(words, result + k))
    {
      AndOnesBelow(tmp, hi, k);
    }
  }

  lemma LastWord(result: nat, size: nat, n: nat)
    requires result % 64 == 0 && 0 < size && result + size <= 64 * n
    ensures result + 64 <= 64 * n && result / 64 < n
  {
  }

  /** The search.  `size` counts down as `result` counts up; each `goto` of the code is a return. */
  method GenericFindNextLeBit(addr: array<bv64>, size0: nat, offset0: nat) returns (r: nat)
    requires size0 <= 64 * addr.Length
    ensures NextBit(addr[..], size0, offset0, r)
  {
    hide LeBit, Bit, Swab, And, OnesFrom, OnesBelow, Ix, Ffs, Holds;
    ghost var words := addr[..];
    var p := offset0 / 64;
    var result := offset0 - offset0 % 64;
    if offset0 >= size0 {
      return size0;
    }
    var size: nat := size0 - result;
    var offset := offset0 % 64;
    LastWord(result, size, |words|);
    if offset != 0 {
      SwabHolds(words, result);
      HeadMask(words, result, 64, Swab(addr[p]), offset);
      var tmp := And(Swab(addr[p]), OnesFrom(Ix(offset)));
      p := p + 1;
      if size < 64 {
        r := FoundFirst(words, size0, offset0, tmp, result, offset, size);
        return;
      }
      if tmp != 0 {
        FoundMiddle(words, size0, offset0, result, offset, 64, tmp);
        return result + Ffs(tmp);
      }
      forall i: nat | offset0 <= i < result + 64
        ensures !LeBit(words, i)
      {
        NothingHere(words, result, offset, 64, tmp, i);
      }
      size := size - 64;
      result := result + 64;
    }
    while size >= 64
      invariant result + size == size0 && result % 64 == 0 && p == result / 64
      invariant offset0 <= result <= size0
      invariant forall i: nat :: offset0 <= i < result ==> !LeBit(words, i)
    {
      var tmp := addr[p];
      SwabHolds(words, result);
      SwabInvolution(tmp);
      p := p + 1;
      if tmp != 0 {
        FoundMiddle(words, size0, offset0, result, 0, 64, Swab(tmp));
        return result + Ffs(Swab(tmp));
      }
      forall i: nat | result <= i < result + 64
        ensures !LeBit(words, i)
      {
        NothingHere(words, result, 0, 64, Swab(tmp), i);
      }
      result := result + 64;
      size := size - 64;
    }
    if size == 0 {
      return result;
    }
    LastWord(result, size, |words|);
    SwabHolds(words, result);
    r := FoundFirst(words, size0, offset0, Swab(addr[p]), result, 0, size);
  }

  /** Label `found_first`: the last, partial word. */
  method FoundFirst(ghost words: seq<bv64>, ghost size0: nat, ghost offset0: nat, tmp0: bv64, result: nat,
                    ghost lo: nat, size: nat) returns (r: nat)
    requires size0 <= 64 * |words| && offset0 < size0
    requires Holds(words, result, lo, 64, tmp0) && 0 < size < 64 && lo <= size && result + size == size0
    requires offset0 <= result + lo && forall i: nat :: offset0 <= i < result + lo ==> !LeBit(words, i)
    ensures NextBit(words, size0, offset0, r)
  {
    hide LeBit, Bit, And, OnesBelow, Ix, Ffs, Holds;
    TailMask(words, result, lo, tmp0, size);
    var tmp := And(tmp0, OnesBelow(Ix(size)));
    if tmp == 0 {
      forall i: nat | offset0 <= i < size0
        ensures !LeBit(words, i)
      {
        if i >= result + lo {
          NothingHere(words, result, lo, size, tmp, i);
        }
      }
      return result + size;
    }
    FoundMiddle(words, size0, offset0, result, lo, size, tmp);
    return result + Ffs(tmp);
  }

  /** The order searched is the order of the bytes in memory: on a big-endian machine the words are read
      the other way round, and bit i is still bit i % 8 of byte i / 8, as the kernel and client of a
      little-endian machine number it. */
  lemma {:induction false} SearchesMemoryOrder(mem: seq<bv8>, words: seq<bv64>, i: nat)
    requires |mem| == 8 * |words| && i < 64 * |words|
    requires forall w: nat :: w < |words| ==> words[w] == BigEndian(mem[8 * w..8 * w + 8])
    ensures LeBit(words, i) == BitmapViews.ByteBit(mem, i) == Bit(BitmapViews.Word64(mem, i / 64), i % 64)
  {
    hide Bit, Swab, BigEndian, LittleEndian, BitmapViews.ByteBit;
    BitmapViews.ClientReadsKernelBits(mem, i);
    SwabConvertsEndianness(mem[8 * (i / 64)..8 * (i / 64) + 8]);
  }

  /** The search from 0, repeated one past each find, visits every set bit once and in order. */
  method AllBits(addr: array<bv64>, size: nat) returns (found: seq<nat>)
    requires size <= 64 * addr.Length
    ensures forall j, k :: 0 <= j < k < |found| ==> found[j] < found[k]
    ensures forall i: nat :: i in found <==> i < size && LeBit(addr[..], i)
  {
    hide LeBit;
    found := [];
    var r := GenericFindNextLeBit(addr, size, 0);
    while r < size
      invariant r <= size && (r < size ==> LeBit(addr[..], r))
      invariant forall j, k :: 0 <= j < k < |found| ==> found[j] < found[k]
      invariant forall j :: 0 <= j < |found| ==> found[j] < r
      invariant forall i: nat :: i in found <==> i < r && LeBit(addr[..], i)
      decreases size - r
    {
      found := found + [r];
      r := GenericFindNextLeBit(addr, size, r + 1);
    }
  }
}
