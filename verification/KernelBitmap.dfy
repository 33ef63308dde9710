/** The kernel's double-buffered dirty bitmap (atdr_bitmap.c and the FLIP ioctl of atdr_main.c).

    One `vmalloc` allocation holds two equally long bitmap areas; `bitmap_area` points at the
    start of the one the kernel is marking.  Memory is an array of 64-bit words. */
module KernelBitmap {
  import opened Words
  import Geometry
  import opened Options
  import opened Replication

  const BITS_PER_PAGE: nat := 32768
  const WORDS_PER_PAGE: nat := 512
  const PAGE_BYTES: nat := 4096
  const MAX_KMALLOC_BYTES: nat := 16384

  /** `ebdr_get_page_ptr` refuses a page whose byte offset exceeds MAX_KMALLOC_BYTES, so pages 0..4
      can be reached: this many bits. */
  const REACH: nat := 163840

  /** Bit `i` of the area that starts at word `base`. */
  predicate At(m: seq<bv64>, base: nat, i: nat)
    requires base + i / 64 < |m|
  {
    Bit(m[base + i / 64], i % 64)
  }

  /** `now` is `was` with the bits lo..hi-1 of one area set to `value`, and nothing else changed. */
  ghost predicate Assigned(was: seq<bv64>, now: seq<bv64>, base: nat, words: nat, lo: int, hi: int, value: bool)
  {
    && |was| == |now|
    && base + words <= |was|
    && (forall i: nat :: i < words * 64 ==> At(now, base, i) == if lo <= i < hi then value else At(was, base, i))
    && (forall w: nat :: w < |was| && !(base <= w < base + words) ==> now[w] == was[w])
  }

  // ---------------------------------------------------------------- address arithmetic

  lemma WordOfBit(words: nat, i: nat)
    ensures i < words * 64 <==> i / 64 < words
    ensures i == i / 64 * 64 + i % 64
  {
  }

  /** Page number and offset within the page address the same word as the bit number itself. */
  lemma PageSplit(i: nat)
    ensures i / BITS_PER_PAGE * WORDS_PER_PAGE + i % BITS_PER_PAGE / 64 == i / 64
    ensures i % BITS_PER_PAGE % 64 == i % 64
    ensures i < REACH <==> i / BITS_PER_PAGE * PAGE_BYTES <= MAX_KMALLOC_BYTES
  {
    var p, r := i / BITS_PER_PAGE, i % BITS_PER_PAGE;
    assert i == p * 32768 + r;
    assert i / 64 == p * 512 + r / 64;
  }

  lemma SameWordSameBit(i: nat, j: nat)
    requires i / 64 == j / 64 && i % 64 == j % 64
    ensures i == j
  {
  }

  /** Division by the grain, clamped to the last bit; with a grain below one sector, the last bit. */
  function PosOf(addr: nat, g: nat, bits: nat): int {
    if g == 0 then bits - 1 else Geometry.Min(addr / g, bits - 1)
  }

  lemma PosFound(addr: nat, g: nat, bits: nat, cur: nat)
    requires cur < bits && cur * g <= addr < (cur + 1) * g
    ensures PosOf(addr, g, bits) == cur
  {
    Geometry.DivIsInterval(addr, g, cur);
  }

  lemma PosBeyond(addr: nat, g: nat, bits: nat)
    requires bits * g <= addr
    ensures PosOf(addr, g, bits) == bits - 1
  {
    if g > 0 {
      Geometry.DivIsInterval(addr, g, addr / g);
      if addr / g < bits {
        Geometry.MulMono(addr / g + 1, bits, g);
      }
    }
  }

  // ---------------------------------------------------------------- composing changes

  /** Setting one bit in one word of the area. */
  lemma OneBitAssigned(was: seq<bv64>, base: nat, words: nat, b: nat, old_: bv64, new_: bv64, value: bool)
    requires base + words <= |was| && b < words * 64
    requires old_ == was[base + b / 64]
    requires forall k: nat :: k < 64 ==> Bit(new_, k) == if k == b % 64 then value else Bit(old_, k)
    ensures Assigned(was, was[base + b / 64 := new_], base, words, b, b + 1, value)
  {
    hide Bit;
    var now := was[base + b / 64 := new_];
    forall i: nat | i < words * 64
      ensures At(now, base, i) == if b <= i < b + 1 then value else At(was, base, i)
    {
      if i / 64 == b / 64 && i % 64 == b % 64 {
        SameWordSameBit(i, b);
      }
    }
  }

  /** Two adjacent assignments make one, also when the reachable pages end before or inside them. */
  lemma AssignedJoin(m0: seq<bv64>, m1: seq<bv64>, m2: seq<bv64>, base: nat, words: nat,
                     lo: int, mid: int, hi: int, value: bool)
    requires Assigned(m0, m1, base, words, lo, Geometry.Min(mid, REACH), value)
    requires Assigned(m1, m2, base, words, mid, Geometry.Min(hi, REACH), value)
    requires lo <= mid <= hi
    ensures Assigned(m0, m2, base, words, lo, Geometry.Min(hi, REACH), value)
  {
    hide At;
    forall i: nat | i < words * 64
      ensures At(m2, base, i) == if lo <= i < Geometry.Min(hi, REACH) then value else At(m0, base, i)
    {
      assert At(m1, base, i) == if lo <= i < Geometry.Min(mid, REACH) then value else At(m0, base, i);
    }
  }

  /** A word-aligned bit number is its page's words plus its word within the page. */
  lemma AlignedBit(b: nat)
    requires b % 64 == 0
    ensures (b / BITS_PER_PAGE * WORDS_PER_PAGE + b / 64 % WORDS_PER_PAGE) * 64 == b
  {
    var p, r := b / BITS_PER_PAGE, b % BITS_PER_PAGE;
    assert b == p * 32768 + r;
    assert b / 64 == p * 512 + r / 64;
  }

  lemma PageBound(pnum: nat, e: nat)
    requires pnum < e / BITS_PER_PAGE
    ensures (pnum + 1) * BITS_PER_PAGE <= e
  {
  }

  /** The same without the reach: the write path indexes the area directly. */
  lemma AssignedChain(m0: seq<bv64>, m1: seq<bv64>, m2: seq<bv64>, base: nat, words: nat,
                      lo: int, mid: int, hi: int, value: bool)
    requires Assigned(m0, m1, base, words, lo, mid, value)
    requires Assigned(m1, m2, base, words, mid, hi, value)
    requires lo <= mid <= hi
    ensures Assigned(m0, m2, base, words, lo, hi, value)
  {
    hide At;
    forall i: nat | i < words * 64
      ensures At(m2, base, i) == if lo <= i < hi then value else At(m0, base, i)
    {
      assert At(m1, base, i) == if lo <= i < mid then value else At(m0, base, i);
    }
  }

  lemma AssignedNothing(m: seq<bv64>, base: nat, words: nat, lo: int, hi: int, value: bool)
    requires base + words <= |m|
    requires hi <= lo
    ensures Assigned(m, m, base, words, lo, hi, value)
  {
  }

  /** Whole words of ones set exactly their own bits. */
  lemma {:induction false} WordsAssigned(was: seq<bv64>, now: seq<bv64>, base: nat, words: nat, lo: nat, hi: nat)
    requires base + words <= |was| == |now| && lo <= hi <= words
    requires forall w: nat :: w < |was| ==> now[w] == if base + lo <= w < base + hi then ALL_ONES else was[w]
    ensures Assigned(was, now, base, words, lo * 64, hi * 64, true)
  {
    hide Bit;
    forall i: nat | i < words * 64
      ensures At(now, base, i) == if lo * 64 <= i < hi * 64 then true else At(was, base, i)
    {
      Constants(i % 64);
      WordOfBit(lo, i);
      WordOfBit(hi, i);
    }
  }

  /** The marked grains of the area at word `base`. */
  function MarkedIn(m: seq<bv64>, base: nat, words: nat): set<nat>
    requires base + words <= |m|
  {
    set i: nat | i < words * 64 && At(m, base, i)
  }

  /** Equal words, equal marks. */
  lemma MarkedSame(m0: seq<bv64>, m1: seq<bv64>, base: nat, words: nat)
    requires base + words <= |m0| && base + words <= |m1|
    requires forall w: nat :: base <= w < base + words ==> m0[w] == m1[w]
    ensures MarkedIn(m0, base, words) == MarkedIn(m1, base, words)
  {
    hide Bit;
    forall i: nat | i < words * 64
      ensures At(m0, base, i) == At(m1, base, i)
    {
      WordOfBit(words, i);
    }
  }

  /** Zero words, no marks. */
  lemma MarkedZero(m: seq<bv64>, base: nat, words: nat)
    requires base + words <= |m|
    requires forall w: nat :: base <= w < base + words ==> m[w] == 0
    ensures MarkedIn(m, base, words) == {}
  {
    forall i: nat | i < words * 64
      ensures !At(m, base, i)
    {
      WordOfBit(words, i);
      Constants(i % 64);
      hide Bit;
    }
  }

  /** The other area keeps its marks. */
  lemma OtherAreaSame(was: seq<bv64>, now: seq<bv64>, base: nat, words: nat, lo: int, hi: int, value: bool, other: nat)
    requires Assigned(was, now, base, words, lo, hi, value)
    requires other + words <= |was| && (other + words <= base || base + words <= other)
    ensures |now| == |was| && MarkedIn(now, other, words) == MarkedIn(was, other, words)
  {
    hide At, MarkedIn;
    MarkedSame(was, now, other, words);
  }

  lemma PosBounds(addr: nat, g: nat, bits: nat)
    requires bits > 0
    ensures 0 <= PosOf(addr, g, bits) < bits
  {
  }

  lemma MarkedAfter(was: seq<bv64>, now: seq<bv64>, base: nat, words: nat, first: nat, last: nat, range: set<nat>)
    requires Assigned(was, now, base, words, first, last + 1, true)
    requires forall g: nat :: g in range <==> g < words * 64 && first <= g <= last
    ensures MarkedIn(now, base, words) == MarkedIn(was, base, words) + range
  {
    hide At;
  }

  /** The resulting memory is unique: bits determine words. */
  lemma {:induction false} AssignedUnique(was: seq<bv64>, m1: seq<bv64>, m2: seq<bv64>, base: nat, words: nat,
                                          lo: int, hi: int, value: bool)
    requires Assigned(was, m1, base, words, lo, hi, value)
    requires Assigned(was, m2, base, words, lo, hi, value)
    ensures m1 == m2
  {
    hide Bit;
    forall w: nat | w < |was|
      ensures m1[w] == m2[w]
    {
      if base <= w < base + words {
        forall k: nat | k < 64
          ensures Bit(m1[w], k) == Bit(m2[w], k)
        {
          var i := (w - base) * 64 + k;
          assert i / 64 == w - base && i % 64 == k;
          assert At(m1, base, i) == At(m2, base, i);
        }
        SameBits(m1[w], m2[w]);
      }
    }
  }

  /** The fast path and the per-bit loop leave the same memory exactly when every bit of the range beyond
      the reachable pages was set already; in particular for every bitmap of four pages or fewer. */
  lemma {:induction false} FastEqualsSlowIff(was: seq<bv64>, fast: seq<bv64>, slow: seq<bv64>,
                                             base: nat, words: nat, begin: nat, end: nat)
    requires begin <= end < words * 64
    requires Assigned(was, fast, base, words, begin, Geometry.Min(end + 1, REACH), true)   // SetBitsFast
    requires Assigned(was, slow, base, words, begin, end + 1, true)               // SetBits
    ensures fast == slow <==> forall i: nat :: begin <= i <= end && REACH <= i ==> At(was, base, i)
  {
    hide At;
    if forall i: nat :: begin <= i <= end && REACH <= i ==> At(was, base, i) {
      assert Assigned(was, fast, base, words, begin, end + 1, true);
      AssignedUnique(was, fast, slow, base, words, begin, end + 1, true);
    }
    if fast == slow {
      forall i: nat | begin <= i <= end && REACH <= i
        ensures At(was, base, i)
      {
        assert At(slow, base, i);
        assert At(fast, base, i) == At(was, base, i);
      }
    }
  }

  /** Only marks have come, in the area being marked. */
  ghost predicate Grown(k0: Kernel, k1: Kernel) {
    && k1.area == k0.area && k1.size == k0.size && k1.user == k0.user
    && Marking(k0) <= Marking(k1) && Resting(k1) == Resting(k0)
  }

  // ---------------------------------------------------------------- the device's bitmap

  class DeviceBitmap {
    const mem: array<bv64>   // both areas
    const words: nat         // words in one area
    const grainBytes: nat    // grain size in bytes
    var area: nat            // bitmap_area, in words from the start of the allocation
    var user: BmapUser

    ghost predicate Valid()
      reads this
    {
      && words > 0
      && mem.Length == 2 * words
      && area == (match user case KERNEL => 0 case USER => words)
    }

    /** `ebdr_get_page_ptr`, as a word index. */
    function GetPagePtr(pnum: nat): (p: Option<nat>)
      reads this
    {
      if pnum * PAGE_BYTES > MAX_KMALLOC_BYTES then None else Some(area + pnum * WORDS_PER_PAGE)
    }

    /** `ebdr_bm_set_bit2` and `ebdr_bm_clear_bit2`: a null page is an error and changes nothing. */
    method ChangeBit(num: nat, arg: Option<nat>, value: bool) returns (ok: bool)
      requires arg.Some? ==> arg.value + num / 64 < mem.Length
      modifies mem
      ensures ok == arg.Some?
      ensures !ok ==> mem[..] == old(mem[..])
      ensures ok ==>
        var w := arg.value + num / 64;
        && mem[..] == old(mem[..])[w := mem[w]]
        && forall k: nat :: k < 64 ==> Bit(mem[w], k) == if k == num % 64 then value else old(Bit(mem[w], k))
    {
      match arg
      case None => ok := false;
      case Some(base) =>
        ok := true;
        var w := base + num / 64;
        var before := mem[w];
        forall k: nat | k < 64
          ensures Ix(num % 64) < 64
          ensures Bit(Or(before, One(Ix(num % 64))), k) == (k == num % 64 || Bit(before, k))
          ensures Bit(AndNot(before, One(Ix(num % 64))), k) == (k != num % 64 && Bit(before, k))
        {
          OrOne(before, num % 64, k);
          AndNotOne(before, num % 64, k);
        }
        IxValue(num % 64);
        hide Bit, Or, AndNot, One, Ix;
        mem[w] := if value then Or(before, One(Ix(num % 64))) else AndNot(before, One(Ix(num % 64)));
    }

    /** One bit, seen as an extension of what is changed so far. */
    method ExtendByBit(ghost was: seq<bv64>, ghost start: nat, i: nat, paddr: Option<nat>, value: bool)
      requires Valid() && start <= i < words * 64 && paddr == GetPagePtr(i / BITS_PER_PAGE)
      requires Assigned(was, mem[..], area, words, start, Geometry.Min(i, REACH), value)
      modifies mem
      ensures Assigned(was, mem[..], area, words, start, Geometry.Min(i + 1, REACH), value)
    {
      hide Assigned, Bit;
      PageSplit(i);
      WordOfBit(words, i);
      ghost var before := mem[..];
      var ok := ChangeBit(i % BITS_PER_PAGE, paddr, value);
      if ok {
        var w := area + i / 64;
        OneBitAssigned(before, area, words, i, before[w], mem[w], value);
        AssignedJoin(was, before, mem[..], area, words, start, i, i + 1, value);
      }
    }

    /** `ebdr_bm_change_bits`: the per-bit loop, page by page; the end is clamped to the bitmap. */
    method ChangeBits(start: nat, end0: nat, value: bool)
      requires Valid()
      modifies mem
      ensures Assigned(old(mem[..]), mem[..], area, words, start, Geometry.Min(Geometry.Min(end0 + 1, words * 64), REACH), value)
    {
      var nbits := words * 64;
      var end: int := end0;
      if end >= nbits {
        end := nbits - 1;
      }
      var lpage: int := -1;
      var paddr: Option<nat> := None;
      var i := start;
      ghost var was := mem[..];
      AssignedNothing(was, area, words, start, Geometry.Min(i, REACH), value);
      if start > end {
        AssignedNothing(was, area, words, start, Geometry.Min(Geometry.Min(end0 + 1, nbits), REACH), value);
      }
      hide Assigned;
      while i <= end
        invariant start <= i && (i <= end + 1 || i == start)
        invariant lpage >= -1 && (lpage >= 0 ==> paddr == GetPagePtr(lpage))
        invariant Assigned(was, mem[..], area, words, start, Geometry.Min(i, REACH), value)
      {
        var pnum := i / BITS_PER_PAGE;
        if lpage != pnum {
          paddr := GetPagePtr(pnum);
          lpage := pnum;
        }
        ExtendByBit(was, start, i, paddr, value);
        i := i + 1;
      }
    }

    /** `ebdr_bm_set_words`: nothing is written through a null page. */
    method SetWords(pno: nat, start: nat, end: nat)
      requires Valid() && start <= end
      requires pno * WORDS_PER_PAGE + end <= words
      modifies mem
      ensures var first := (pno * WORDS_PER_PAGE + start) * 64;
              var past := (pno * WORDS_PER_PAGE + end) * 64;
              GetPagePtr(pno).Some? ==> Assigned(old(mem[..]), mem[..], area, words, first, past, true)
      ensures GetPagePtr(pno).None? ==> mem[..] == old(mem[..])
    {
      var padd := GetPagePtr(pno);
      ghost var was := mem[..];
      if padd.None? { return; }
      var i := start;
      while i < end
        invariant start <= i <= end
        invariant forall w: nat :: w < mem.Length ==>
          mem[w] == if padd.value + start <= w < padd.value + i then ALL_ONES else was[w]
      {
        mem[padd.value + i] := ALL_ONES;
        i := i + 1;
      }
      WordsAssigned(was, mem[..], area, words, pno * WORDS_PER_PAGE + start, pno * WORDS_PER_PAGE + end);
    }

    /** One page of words, seen as an extension of what is set so far. */
    method ExtendByWords(ghost was: seq<bv64>, ghost b1: nat, pno: nat, start: nat, end: nat)
      requires Valid() && start <= end <= WORDS_PER_PAGE
      requires pno * WORDS_PER_PAGE + end <= words
      requires b1 <= (pno * WORDS_PER_PAGE + start) * 64
      requires Assigned(was, mem[..], area, words, b1, Geometry.Min((pno * WORDS_PER_PAGE + start) * 64, REACH), true)
      modifies mem
      ensures Assigned(was, mem[..], area, words, b1, Geometry.Min((pno * WORDS_PER_PAGE + end) * 64, REACH), true)
    {
      hide Assigned;
      ghost var before := mem[..];
      SetWords(pno, start, end);
      if GetPagePtr(pno).Some? {
        AssignedJoin(was, before, mem[..], area, words, b1,
                     (pno * WORDS_PER_PAGE + start) * 64, (pno * WORDS_PER_PAGE + end) * 64, true);
      }
    }

    /** The page loop of `ebdr_bm_set_bits`: whole words from bit b1 to bit e1. */
    method SetWholeWords(b1: nat, e1: nat)
      requires Valid() && b1 <= e1 <= words * 64 && b1 % 64 == 0 && e1 % 64 == 0
      modifies mem
      ensures Assigned(old(mem[..]), mem[..], area, words, b1, Geometry.Min(e1, REACH), true)
    {
      ghost var was := mem[..];
      AssignedNothing(was, area, words, b1, Geometry.Min(b1, REACH), true);
      hide Assigned;
      var fpage := b1 / BITS_PER_PAGE;
      var lpage := e1 / BITS_PER_PAGE;
      var fword := b1 / 64 % WORDS_PER_PAGE;
      var lword := WORDS_PER_PAGE;
      AlignedBit(b1);
      AlignedBit(e1);
      var pnum := fpage;
      while pnum < lpage
        invariant fpage <= pnum <= lpage
        invariant fword == if pnum == fpage then b1 / 64 % WORDS_PER_PAGE else 0
        invariant Assigned(was, mem[..], area, words, b1, Geometry.Min((pnum * WORDS_PER_PAGE + fword) * 64, REACH), true)
      {
        PageBound(pnum, e1);
        ExtendByWords(was, b1, pnum, fword, lword);
        fword := 0;
        pnum := pnum + 1;
      }
      lword := e1 / 64 % WORDS_PER_PAGE;
      if lword != 0 {
        ExtendByWords(was, b1, lpage, fword, lword);
      }
    }

    /** `ebdr_bm_set_bits`: head bits, then whole words page by page, then tail bits. */
    method SetBitsFast(begin: nat, end: nat)
      requires Valid() && begin <= end < words * 64
      modifies mem
      ensures Assigned(old(mem[..]), mem[..], area, words, begin, Geometry.Min(end + 1, REACH), true)
    {
      ghost var was := mem[..];
      var b1 := (begin + 63) / 64 * 64;
      var e1 := (end + 1) / 64 * 64;
      if end - begin <= 3 * 64 {
        ChangeBits(begin, end, true);
        return;
      }
      AssignedNothing(was, area, words, begin, begin, true);
      hide Assigned;
      if b1 > 0 {
        ChangeBits(begin, b1 - 1, true);
      }
      ghost var head := mem[..];
      SetWholeWords(b1, e1);
      AssignedJoin(was, head, mem[..], area, words, begin, b1, e1, true);
      if e1 <= end {
        ghost var middle := mem[..];
        ChangeBits(e1, end, true);
        AssignedJoin(was, middle, mem[..], area, words, begin, e1, end + 1, true);
      }
    }

    // -------------------------------------------------------------- marking a write

    /** `ebdr_set_bits`: the loop the write path really uses. */
    method SetBits(first: nat, last: nat)
      requires Valid() && last < words * 64
      modifies mem
      ensures Assigned(old(mem[..]), mem[..], area, words, first, last + 1, true)
    {
      ghost var was := mem[..];
      AssignedNothing(was, area, words, first, first, true);
      if first > last {
        AssignedNothing(was, area, words, first, last + 1, true);
      }
      var i := first;
      while i <= last
        invariant first <= i && (i <= last + 1 || i == first)
        invariant Assigned(was, mem[..], area, words, first, i, true)
      {
        hide Assigned, Bit;
        WordOfBit(words, i);
        ghost var before := mem[..];
        var ok := ChangeBit(i, Some(area), true);
        var w := area + i / 64;
        OneBitAssigned(before, area, words, i, before[w], mem[w], true);
        AssignedChain(was, before, mem[..], area, words, first, i, i + 1, true);
        i := i + 1;
      }
    }

    /** `ebdr_find_pos`: the first grain whose end lies beyond the address, or the last one. */
    method FindPos(addr: nat) returns (cur: nat)
      requires Valid()
      ensures cur == PosOf(addr, grainBytes / Geometry.SECTOR_BYTES, words * 64)
    {
      var g := grainBytes / Geometry.SECTOR_BYTES;
      var bits := words * 64;
      cur := 0;
      while cur < bits
        invariant cur <= bits
        invariant cur * g <= addr
      {
        if addr < (cur + 1) * g {
          PosFound(addr, g, bits, cur);
          return;
        }
        cur := cur + 1;
      }
      PosBeyond(addr, g, bits);
      cur := bits - 1;
    }

    /** The bitmap as the rest of the replicator sees it. */
    ghost function View(): Kernel
      requires Valid()
      reads this, mem
    {
      Kernel(MarkedIn(mem[..], 0, words), MarkedIn(mem[..], words, words), area, words, user)
    }

    /** The bits from the one found for `start` to the one found for the end. */
    predicate InRange(start: nat, count: nat, i: nat) {
      var g := grainBytes / Geometry.SECTOR_BYTES;
      PosOf(start, g, words * 64) <= i <= PosOf(start + count, g, words * 64)
    }

    ghost function Range(start: nat, count: nat): set<nat> {
      set i: nat | i < words * 64 && InRange(start, count, i)
    }

    lemma RangeOfGrains(start: nat, count: nat)
      requires words > 0
      ensures grainBytes / Geometry.SECTOR_BYTES > 0 ==>
        Range(start, count) == Geometry.Geometry(words * 64, grainBytes / Geometry.SECTOR_BYTES, 0).MarkRange(start, count)
    {
    }

    /** `ebdr_set_bitmap` for a write of `count` sectors at `start`: the system's Mark step. */
    method SetBitmap(start: nat, count: nat)
      requires Valid()
      modifies mem
      ensures View() == MarkGrains(old(View()), Range(start, count))
      ensures grainBytes / Geometry.SECTOR_BYTES > 0 ==>
        Range(start, count) == Geometry.Geometry(words * 64, grainBytes / Geometry.SECTOR_BYTES, 0).MarkRange(start, count)
    {
      hide Assigned, At, MarkedIn, PosOf;
      RangeOfGrains(start, count);
      ghost var was := mem[..];
      var first := FindPos(start);
      var last := FindPos(start + count);
      PosBounds(start + count, grainBytes / Geometry.SECTOR_BYTES, words * 64);
      SetBits(first, last);
      MarkedAfter(was, mem[..], area, words, first, last, Range(start, count));
      OtherAreaSame(was, mem[..], area, words, first, last + 1, true, words - area);
    }

    /** The bits of several writes. */
    ghost function Ranges(writes: seq<(nat, nat)>): set<nat> {
      if writes == [] then {}
      else
        var last := writes[|writes| - 1];
        Ranges(writes[..|writes| - 1]) + Range(last.0, last.1)
    }

    method MarkAll(writes: seq<(nat, nat)>)
      requires Valid()
      modifies mem
      ensures Grown(old(View()), View()) && Marking(View()) == Marking(old(View())) + Ranges(writes)
    {
      ghost var k0 := View();
      for i := 0 to |writes|
        invariant Grown(k0, View()) && Marking(View()) == Marking(k0) + Ranges(writes[..i])
      {
        hide Range;
        assert writes[..i + 1][..i] == writes[..i];
        SetBitmap(writes[i].0, writes[i].1);
      }
      assert writes[..|writes|] == writes;
    }

    // -------------------------------------------------------------- the FLIP

    /** EBDRCTL_GET_USER */
    method GetUser() returns (u: BmapUser)
      ensures u == user
    {
      u := user;
    }

    /** EBDR_FLIP_BITMAP_AREA */
    method Flip()
      requires Valid()
      modifies this
      ensures Valid() && View() == FlipArea(old(View()))
    {
      if user == USER {
        area := 0;
        user := KERNEL;
      } else {
        area := area + words;
        user := USER;
      }
    }

    /** `ebdr_init_bmap` over freshly allocated memory (the allocator clears both areas). */
    constructor (words_: nat, grain: nat)
      requires words_ > 0
      ensures Valid() && user == KERNEL && words == words_ && grainBytes == grain && fresh(mem)
      ensures View() == Kernel({}, {}, 0, words_, KERNEL)
    {
      words := words_;
      grainBytes := grain;
      mem := new bv64[2 * words_](_ => 0);
      area := 0;
      user := KERNEL;
      new;
      MarkedZero(mem[..], 0, words);
      MarkedZero(mem[..], words, words);
    }
  }
}
