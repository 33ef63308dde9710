/** The ways the kernel, the client and the server read the same bitmap bytes.

    The kernel sets bits through 64-bit words, the client tests them through 32-bit words, and the
    server counts them byte by byte, numbering each byte's bits from the top.  Words are little-endian,
    as on the x86 machines the daemons run on. */
module BitmapViews {
  import opened Words
  import KernelBitmap
  import ResyncSteps

  /** MAX_BITS_LEN and BITMAP_SIZE */
  const MAX_BITS_LEN: nat := 131072
  const BITMAP_SIZE: nat := 16384

  const PAGE_BITS: nat := 32768

  // ---------------------------------------------------------------- the readings

  /** Bit n of memory, the lowest bit of a byte first: the little-endian numbering. */
  predicate ByteBit(mem: seq<bv8>, n: nat)
    requires n < 8 * |mem|
  {
    Bit(Byte(mem[n / 8]), n % 8)
  }

  /** The 64-bit word number w. */
  function Word64(mem: seq<bv8>, w: nat): bv64
    requires 8 * w + 8 <= |mem|
  {
    LittleEndian(mem[8 * w..8 * w + 8])
  }

  /** The word a little-endian machine reads from four consecutive bytes. */
  function LittleEndian32(b: seq<bv8>): bv32
    requires |b| == 4
  {
    (b[0] as bv32) | (b[1] as bv32 << 8) | (b[2] as bv32 << 16) | (b[3] as bv32 << 24)
  }

  /** The 32-bit word number w, widened. */
  function Word32(mem: seq<bv8>, w: nat): bv64
    requires 4 * w + 4 <= |mem|
  {
    LittleEndian32(mem[4 * w..4 * w + 4]) as bv64
  }

  lemma WordsInBounds(size: nat, n: nat)
    requires size % 8 == 0 && n < 8 * size
    ensures 4 * (n / 32) + 4 <= size && 8 * (n / 64) + 8 <= size
  {
    var words := size / 8;
    assert n < 64 * words;
    assert n / 64 < words && n / 32 < 2 * words;
  }

  /** `test_bit`, hence `is_bit_set`: 32-bit word nr >> 5, bit nr & 31. */
  predicate TestBit(mem: seq<bv8>, nr: nat)
    requires |mem| % 8 == 0 && nr < 8 * |mem|
  {
    WordsInBounds(|mem|, nr);
    Bit(Word32(mem, nr / 32), nr % 32)
  }

  /** `*var & mask` with `mask = 1 << (8 - 1 - temp)` */
  predicate MaskedTop(b: bv8, temp: bv8)
    requires temp < 8
  {
    b & (1 << (7 - temp)) != 0
  }

  /** `ebdr_test_bit2` */
  predicate TestBit2(mem: seq<bv8>, num: nat)
    requires num < 8 * |mem|
  {
    MaskedTop(mem[num / 8], (num % 8) as bv8)
  }

  /** `ebdr_check_bit_set`: page of the bit, bound check, then the bit within the page. */
  predicate CheckBitSet(mem: seq<bv8>, pos: nat)
    requires |mem| == BITMAP_SIZE && pos < MAX_BITS_LEN
  {
    var pnum := pos / PAGE_BITS;
    pnum * PAGE_BITS <= MAX_BITS_LEN && TestBit2(mem[pnum * PAGE_BITS / 8..], pos % PAGE_BITS)
  }

  // ---------------------------------------------------------------- 64-bit, 32-bit and byte readings agree

  function Byte(b: bv8): bv64 { b as bv64 }

  /** Bit 8j + i of a little-endian word is bit i of byte j. */
  predicate ByteOfWord(w: bv64, b: bv8, start: bv64, i: bv64)
    requires start <= 56 && i < 8
  {
    SumBound(start, i);
    BitAt(w, start + i) == BitAt(Byte(b), i)
  }

  lemma WordBitAt(b: seq<bv8>, i: bv64)
    requires |b| == 8 && i < 8
    ensures var w := LittleEndian(b);
            && ByteOfWord(w, b[0], 0, i) && ByteOfWord(w, b[1], 8, i)
            && ByteOfWord(w, b[2], 16, i) && ByteOfWord(w, b[3], 24, i)
            && ByteOfWord(w, b[4], 32, i) && ByteOfWord(w, b[5], 40, i)
            && ByteOfWord(w, b[6], 48, i) && ByteOfWord(w, b[7], 56, i)
  {
  }

  lemma WordBitAt32(b: seq<bv8>, i: bv64)
    requires |b| == 4 && i < 8
    ensures var w := LittleEndian32(b) as bv64;
            && ByteOfWord(w, b[0], 0, i) && ByteOfWord(w, b[1], 8, i)
            && ByteOfWord(w, b[2], 16, i) && ByteOfWord(w, b[3], 24, i)
  {
  }

  lemma SumBound(x: bv64, y: bv64)
    requires x <= 56 && y < 8
    ensures x + y < 64
  {
  }

  lemma SameValue(a: bv64, b: bv64)
    requires a < 64 && b < 64 && a as nat == b as nat
    ensures a == b
  {
    SmallOrder(a, b);
    SmallOrder(b, a);
  }

  lemma ByteStarts()
    ensures Ix(0) == 0 && Ix(8) == 8 && Ix(16) == 16 && Ix(24) == 24
    ensures Ix(32) == 32 && Ix(40) == 40 && Ix(48) == 48 && Ix(56) == 56
  {
  }

  /** Position 8j + i as a bit vector. */
  lemma IxSum(j: nat, i: nat)
    requires j < 8 && i < 8
    ensures Ix(8 * j) < 64 && Ix(i) < 8 && Ix(8 * j + i) == Ix(8 * j) + Ix(i)
  {
    ByteStarts();
    hide Ix;
    IxValue(i);
    IxValue(8 * j);
    IxValue(8 * j + i);
    IxOrder(i, 8);
    IxOrder(56, 8 * j);
    SmallSum(Ix(8 * j), Ix(i));
    SumBound(Ix(8 * j), Ix(i));
    SameValue(Ix(8 * j + i), Ix(8 * j) + Ix(i));
  }

  lemma {:induction false} FromByte(w: bv64, b: bv8, j: nat, i: nat)
    requires j < 8 && i < 8
    requires Ix(8 * j) <= 56 && Ix(i) < 8 && ByteOfWord(w, b, Ix(8 * j), Ix(i))
    ensures Bit(w, 8 * j + i) == Bit(Byte(b), i)
  {
    hide BitAt, Byte, Ix;
    IxSum(j, i);
  }

  lemma SmallIx(j: nat, i: nat)
    requires j < 8 && i < 8
    ensures Ix(8 * j) <= 56 && Ix(i) < 8
  {
    ByteStarts();
    hide Ix;
    IxOrder(56, 8 * j);
    IxOrder(i, 8);
  }

  lemma {:induction false} WordBit(b: seq<bv8>, k: nat)
    requires |b| == 8 && k < 64
    ensures Bit(LittleEndian(b), k) == Bit(Byte(b[k / 8]), k % 8)
  {
    hide BitAt, Bit, LittleEndian, Ix, Byte, ByteOfWord;
    ByteStarts();
    var j, i := k / 8, k % 8;
    SmallIx(j, i);
    WordBitAt(b, Ix(i));
    FromByte(LittleEndian(b), b[j], j, i);
  }

  lemma {:induction false} WordBit32(b: seq<bv8>, k: nat)
    requires |b| == 4 && k < 32
    ensures Bit(LittleEndian32(b) as bv64, k) == Bit(Byte(b[k / 8]), k % 8)
  {
    hide BitAt, Bit, LittleEndian32, Ix, Byte, ByteOfWord;
    ByteStarts();
    var j, i := k / 8, k % 8;
    SmallIx(j, i);
    WordBitAt32(b, Ix(i));
    FromByte(LittleEndian32(b) as bv64, b[j], j, i);
  }

  lemma SameByte(n: nat)
    ensures 8 * (n / 64) + n % 64 / 8 == n / 8 && n % 64 % 8 == n % 8
    ensures 4 * (n / 32) + n % 32 / 8 == n / 8 && n % 32 % 8 == n % 8
  {
  }

  /** The bit the kernel sets through a 64-bit word is the bit the client reads through a 32-bit word,
      and both are the little-endian bit of the bytes. */
  lemma {:induction false} ClientReadsKernelBits(mem: seq<bv8>, n: nat)
    requires |mem| % 8 == 0 && n < 8 * |mem|
    ensures TestBit(mem, n) == ByteBit(mem, n)
    ensures 8 * (n / 64) + 8 <= |mem| && Bit(Word64(mem, n / 64), n % 64) == ByteBit(mem, n)
  {
    hide Bit, LittleEndian, LittleEndian32, Byte;
    WordsInBounds(|mem|, n);
    SameByte(n);
    WordBit(mem[8 * (n / 64)..8 * (n / 64) + 8], n % 64);
    WordBit32(mem[4 * (n / 32)..4 * (n / 32) + 4], n % 32);
  }

  // ---------------------------------------------------------------- counting from the top of each byte

  lemma MaskAt(b: bv8, temp: bv8)
    requires temp < 8
    ensures MaskedTop(b, temp) == BitAt(Byte(b), 7 - temp as bv64)
  {
  }

  /** The bit `ebdr_test_bit2` means by number n. */
  function Mirror(n: nat): nat {
    n / 8 * 8 + 7 - n % 8
  }

  lemma MirrorTwice(n: nat)
    ensures Mirror(n) / 8 == n / 8 && Mirror(n) % 8 == 7 - n % 8
    ensures Mirror(Mirror(n)) == n
  {
  }

  lemma TopPosition(t: nat)
    requires t < 8
    ensures (t as bv8) < 8 && 7 - (t as bv8) as bv64 == Ix(7 - t)
  {
  }

  /** Bit numbers of the two byte numberings correspond by mirroring within the byte. */
  lemma {:induction false} TestBit2IsMirrored(mem: seq<bv8>, n: nat)
    requires n < 8 * |mem|
    ensures Mirror(n) < 8 * |mem|
    ensures TestBit2(mem, n) == ByteBit(mem, Mirror(n))
  {
    TopPosition(n % 8);
    MirrorTwice(n);
    hide MaskedTop, BitAt, Ix;
    MaskAt(mem[n / 8], (n % 8) as bv8);
  }

  lemma {:induction false} CheckIsMirrored(mem: seq<bv8>, n: nat)
    requires |mem| == BITMAP_SIZE && n < MAX_BITS_LEN
    ensures Mirror(n) < MAX_BITS_LEN
    ensures CheckBitSet(mem, n) == ByteBit(mem, Mirror(n))
  {
    hide MaskedTop, Bit, TestBit2;
    var p, r := n / PAGE_BITS, n % PAGE_BITS;
    assert n == p * 32768 + r && p < 4;
    var page := mem[p * PAGE_BITS / 8..];
    TestBit2IsMirrored(page, r);
    MirrorTwice(n);
    MirrorTwice(r);
    assert page[r / 8] == mem[n / 8];
  }

  /** The marked grains of a bitmap. */
  function Marked(mem: seq<bv8>): set<nat> {
    set n: nat | n < 8 * |mem| && ByteBit(mem, n)
  }

  /** The positions below `pos` the counting loop counts. */
  ghost function CheckedBelow(mem: seq<bv8>, pos: nat): set<nat>
    requires |mem| == BITMAP_SIZE && pos <= MAX_BITS_LEN
  {
    set n: nat | n < pos && CheckBitSet(mem, n)
  }

  ghost function MirrorAll(s: set<nat>): set<nat> {
    set n: nat | n in s :: Mirror(n)
  }

  lemma {:induction false} MirrorKeepsSize(s: set<nat>)
    ensures |MirrorAll(s)| == |s|
  {
    if s != {} {
      var x :| x in s;
      MirrorKeepsSize(s - {x});
      assert MirrorAll(s) == MirrorAll(s - {x}) + {Mirror(x)};
      forall n | n in s - {x}
        ensures Mirror(n) != Mirror(x)
      {
        MirrorTwice(n);
        MirrorTwice(x);
      }
      assert Mirror(x) !in MirrorAll(s - {x});
    }
  }

  /** Mirroring changes which number a mark has, not how many there are. */
  lemma {:induction false} SameNumberOfMarks(mem: seq<bv8>)
    requires |mem| == BITMAP_SIZE
    ensures |CheckedBelow(mem, MAX_BITS_LEN)| == |Marked(mem)|
  {
    hide ByteBit, CheckBitSet;
    forall n: nat | n < MAX_BITS_LEN
      ensures Mirror(n) < MAX_BITS_LEN && CheckBitSet(mem, n) == ByteBit(mem, Mirror(n))
    {
      CheckIsMirrored(mem, n);
    }
    var c := CheckedBelow(mem, MAX_BITS_LEN);
    forall n: nat | n in Marked(mem)
      ensures n in MirrorAll(c)
    {
      MirrorTwice(n);
      assert Mirror(n) in c;
    }
    assert MirrorAll(c) == Marked(mem);
    MirrorKeepsSize(c);
  }

  /** `get_total_bits_set` counts the marked grains. */
  method GetTotalBitsSet(mem: seq<bv8>) returns (bitsSet: nat)
    requires |mem| == BITMAP_SIZE
    ensures bitsSet == |Marked(mem)|
  {
    hide CheckBitSet;
    bitsSet := 0;
    var bitPos := 0;
    assert CheckedBelow(mem, 0) == {};
    while bitPos < MAX_BITS_LEN
      invariant 0 <= bitPos <= MAX_BITS_LEN
      invariant bitsSet == |CheckedBelow(mem, bitPos)|
    {
      assert CheckedBelow(mem, bitPos + 1) ==
        CheckedBelow(mem, bitPos) + if CheckBitSet(mem, bitPos) then {bitPos} else {};
      if CheckBitSet(mem, bitPos) {
        bitsSet := bitsSet + 1;
      }
      bitPos := bitPos + 1;
    }
    SameNumberOfMarks(mem);
  }

  /** When the words are the bytes' words, the grains the kernel marked are the marked grains of the
      bytes: what is counted, sent and tested is what was marked. */
  lemma {:induction false} KernelMarks(words: seq<bv64>, mem: seq<bv8>)
    requires |mem| == 8 * |words|
    requires forall w: nat :: w < |words| ==> words[w] == Word64(mem, w)
    ensures KernelBitmap.MarkedIn(words, 0, |words|) == Marked(mem)
    ensures forall n: nat :: n < 64 * |words| ==> (TestBit(mem, n) <==> n in KernelBitmap.MarkedIn(words, 0, |words|))
  {
    hide Bit, ByteBit, TestBit, Word64;
    forall n: nat | n < 64 * |words|
      ensures KernelBitmap.At(words, 0, n) == ByteBit(mem, n) == TestBit(mem, n)
    {
      ClientReadsKernelBits(mem, n);
    }
  }

  /** The client's test before it writes the bitmap file, `*(bitmap_area) == 0`, is for the first 64-bit word. */
  lemma {:induction false} FileIsWrittenIff(words: seq<bv64>)
    requires |words| > 0
    ensures ResyncSteps.FirstWordMarked(KernelBitmap.MarkedIn(words, 0, |words|)) <==> words[0] != 0
  {
    hide Bit;
    NonzeroHasBit(words[0]);
    forall k: nat | k < 64
      ensures k in KernelBitmap.MarkedIn(words, 0, |words|) <==> Bit(words[0], k)
    {
    }
  }
}
