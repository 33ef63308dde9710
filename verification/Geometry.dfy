/** Sectors, grains and chunks.

    One bitmap bit stands for one grain of `grain` sectors.  A resync moves a grain as
    grain / chunk chunks; every transfer is one 4096-byte buffer, that is eight sectors. */
module Geometry {

  /** Bytes per sector (CHUNK_SIZE) */
  const SECTOR_BYTES: nat := 512

  const BUF_SIZE_IN_BYTES: nat := 4096

  /** Sectors per buffer: BUF_SIZE_IN_BYTES / 512 */
  const BUFFER: nat := 8

  function Min(a: int, b: int): int { if a < b then a else b }

  /** A device as both sides see it: bitmap length, grain size in sectors, capacity in sectors. */
  datatype Geometry = Geometry(bits: nat, grain: nat, cap: nat) {

    ghost predicate Valid() {
      && bits > 0
      && grain > 0
      && grain % BUFFER == 0
      && cap <= bits * grain
    }

    predicate HasBit(g: nat) { g < bits }

    function AllGrains(): set<nat> {
      set g: nat | g < bits && HasBit(g)
    }

    /** `total_iterations` of the resync loop. */
    function Chunks(): nat
      requires grain > 0
    {
      grain / BUFFER
    }

    /** First sector of chunk `c` of grain `bit` (`start_lba`). */
    function Lba(bit: nat, c: nat): nat { bit * grain + c * BUFFER }

    function GrainOf(s: nat): nat
      requires grain > 0
    {
      s / grain
    }

    /** The bit `ebdr_find_pos` finds for a sector address. */
    function FindPos(addr: nat): nat
      requires grain > 0 && bits > 0
    {
      Min(addr / grain, bits - 1)
    }

    /** `ebdr_set_bitmap` marks grain g for a write of `count` sectors at `start`. */
    predicate Marks(start: nat, count: nat, g: nat)
      requires grain > 0 && bits > 0
    {
      FindPos(start) <= g <= FindPos(start + count)
    }

    /** All the grains it marks. */
    function MarkRange(start: nat, count: nat): set<nat>
      requires grain > 0 && bits > 0
    {
      set g: nat | g < bits && Marks(start, count, g)
    }
  }

  // ---------------------------------------------------------------- grains

  /** Dividing by the grain is finding the interval. */
  lemma {:induction false} DivIsInterval(s: nat, g: nat, q: nat)
    requires g > 0
    ensures s / g == q <==> q * g <= s < (q + 1) * g
  {
    assert s == s / g * g + s % g;
    if q * g <= s < (q + 1) * g {
      if s / g < q {
        MulMono(s / g + 1, q, g);
      } else if s / g > q {
        MulMono(q + 1, s / g, g);
      }
    }
  }

  lemma MulMono(a: nat, b: nat, g: nat)
    requires a <= b
    ensures a * g <= b * g
  {
  }

  lemma DivMono(a: nat, b: nat, g: nat)
    requires g > 0 && a <= b
    ensures a / g <= b / g
  {
    assert a == a / g * g + a % g;
    assert b == b / g * g + b % g;
    if a / g > b / g {
      MulMono(b / g + 1, a / g, g);
    }
  }

  /** A sector of the device has a bit of its own in the bitmap. */
  lemma {:induction false} GrainInBitmap(geo: Geometry, s: nat)
    requires geo.Valid() && s < geo.cap
    ensures geo.GrainOf(s) < geo.bits
    ensures geo.FindPos(s) == geo.GrainOf(s)
  {
    if geo.GrainOf(s) >= geo.bits {
      MulMono(geo.bits, geo.GrainOf(s), geo.grain);
      DivIsInterval(s, geo.grain, geo.GrainOf(s));
    }
  }

  // ---------------------------------------------------------------- which grains a write marks

  /** Every written sector lies in a marked grain, and every marked grain has a bit. */
  lemma {:induction false} WriteIsCovered(geo: Geometry, start: nat, count: nat, s: nat)
    requires geo.Valid() && start <= s < start + count && s < geo.cap
    ensures geo.GrainOf(s) in geo.MarkRange(start, count)
  {
    GrainInBitmap(geo, s);
    DivMono(start, s, geo.grain);
    DivMono(s, start + count, geo.grain);
  }

  /** A marked grain that holds no written sector can only be the last one marked. */
  lemma {:induction false} AtMostOneExtraGrain(geo: Geometry, start: nat, count: nat, g: nat)
    requires geo.Valid() && start + count <= geo.cap && g in geo.MarkRange(start, count)
    requires forall s :: start <= s < start + count ==> geo.GrainOf(s) != g
    ensures g == geo.FindPos(start + count)
    ensures count > 0 ==> start + count == g * geo.grain
  {
    var first := geo.FindPos(start);
    if count > 0 {
      GrainInBitmap(geo, start);
      assert geo.GrainOf(start) != g;
      DivMono(start, start + count, geo.grain);
      DivIsInterval(start, geo.grain, geo.GrainOf(start));
      MulMono(geo.GrainOf(start) + 1, g, geo.grain);
      DivIsInterval(start + count, geo.grain, (start + count) / geo.grain);
      MulMono(g, (start + count) / geo.grain, geo.grain);
      var s := g * geo.grain;
      assert start < s <= start + count;
      DivIsInterval(s, geo.grain, g);
      assert geo.GrainOf(s) == g;
      assert s == start + count;
    }
  }

  /** Some sector from `start` to the exclusive end, that included, has this bit. */
  predicate HasSector(geo: Geometry, start: nat, count: nat, g: nat)
    requires geo.grain > 0 && geo.bits > 0
  {
    exists s: nat :: start <= s <= start + count && geo.FindPos(s) == g
  }

  /** The grains marked are exactly those of the sectors written and of the one right behind them; addresses
      beyond the bitmap count for its last grain. */
  lemma {:induction false} MarkedIff(geo: Geometry, start: nat, count: nat, g: nat)
    requires geo.Valid()
    ensures g in geo.MarkRange(start, count) <==> HasSector(geo, start, count, g)
  {
    if s: nat :| start <= s <= start + count && geo.FindPos(s) == g {
      DivMono(start, s, geo.grain);
      DivMono(s, start + count, geo.grain);
    }
    if g in geo.MarkRange(start, count) {
      DivMono(start, start + count, geo.grain);
      if g == geo.FindPos(start) {
        assert HasSector(geo, start, count, g);
      } else if g == geo.FindPos(start + count) {
        assert HasSector(geo, start, count, g);
      } else {
        DivIsInterval(start, geo.grain, start / geo.grain);
        DivIsInterval(start + count, geo.grain, (start + count) / geo.grain);
        MulMono(start / geo.grain + 1, g, geo.grain);
        MulMono(g, (start + count) / geo.grain, geo.grain);
        var s := g * geo.grain;
        DivIsInterval(s, geo.grain, g);
        assert geo.FindPos(s) == g;
      }
    }
  }

  // ---------------------------------------------------------------- chunks

  /** The chunk that holds a sector. */
  function ChunkOf(geo: Geometry, s: nat): nat
    requires geo.grain > 0
  {
    s % geo.grain / BUFFER
  }

  /** The buffers at (bit, chunk) partition the sectors the bitmap covers: each sector lies in
      exactly one of them. */
  lemma {:induction false} ChunksPartition(geo: Geometry, s: nat, bit: nat, c: nat)
    requires geo.Valid() && c < geo.Chunks()
    ensures geo.Lba(bit, c) <= s < geo.Lba(bit, c) + BUFFER <==> bit == geo.GrainOf(s) && c == ChunkOf(geo, s)
    ensures ChunkOf(geo, s) < geo.Chunks()
  {
    var q, r := s / geo.grain, s % geo.grain;
    assert s == q * geo.grain + r;
    assert geo.Chunks() * BUFFER == geo.grain;
    if geo.Lba(bit, c) <= s < geo.Lba(bit, c) + BUFFER {
      DivIsInterval(s, geo.grain, bit);
    }
  }

  /** The sectors of one grain as the resync loop transfers them, for any negotiated chunk size:
      buffer k starts k * chunk sectors into the grain and is BUFFER sectors long. */
  ghost predicate Transfers(grain: nat, chunk: nat, k: nat, o: nat)
    requires chunk > 0
  {
    k < grain / chunk && k * chunk <= o < k * chunk + BUFFER
  }

  ghost predicate Transferred(grain: nat, chunk: nat, o: nat)
    requires chunk > 0
  {
    exists k: nat :: Transfers(grain, chunk, k, o)
  }

  /** Every sector of the grain is transferred once, and nothing outside it is. */
  ghost predicate ExactlyOnce(grain: nat, chunk: nat)
    requires chunk > 0
  {
    && (forall o: nat :: o < grain ==> Transferred(grain, chunk, o))
    && (forall o: nat, k: nat, j: nat :: Transfers(grain, chunk, k, o) && Transfers(grain, chunk, j, o) ==> k == j)
    && (forall o: nat, k: nat :: Transfers(grain, chunk, k, o) ==> o < grain)
  }

  /** The loop's fixed buffer fits the negotiated sizes exactly when the chunk is one buffer and
      divides the grain, or the grain is a single buffer. */
  lemma {:induction false} ExactlyOnceIff(grain: nat, chunk: nat)
    requires chunk > 0 && grain > 0
    ensures ExactlyOnce(grain, chunk) <==>
              (chunk == BUFFER && grain % BUFFER == 0) || (grain == BUFFER && grain / chunk == 1)
  {
    if chunk == BUFFER && grain % BUFFER == 0 {
      forall o: nat | o < grain
        ensures Transferred(grain, chunk, o)
      {
        assert Transfers(grain, chunk, o / BUFFER, o);
      }
    }
    if grain == BUFFER && grain / chunk == 1 {
      forall o: nat | o < grain
        ensures Transferred(grain, chunk, o)
      {
        assert Transfers(grain, chunk, 0, o);
      }
    }
    if ExactlyOnce(grain, chunk) {
      NeedsOneBuffer(grain, chunk);
    }
  }

  lemma NeedsOneBuffer(grain: nat, chunk: nat)
    requires chunk > 0 && grain > 0 && ExactlyOnce(grain, chunk)
    ensures (chunk == BUFFER && grain % BUFFER == 0) || (grain == BUFFER && grain / chunk == 1)
  {
    var n := grain / chunk;
    assert Transferred(grain, chunk, 0);
    var k0: nat :| Transfers(grain, chunk, k0, 0);
    assert n > 0;
    assert Transfers(grain, chunk, 0, BUFFER - 1);
    assert grain >= BUFFER;
    if n == 1 {
      if grain > BUFFER {
        assert Transferred(grain, chunk, BUFFER);
        var k: nat :| Transfers(grain, chunk, k, BUFFER);
        assert false;
      }
    } else {
      assert Transfers(grain, chunk, 1, chunk);
      if chunk < BUFFER {
        assert Transfers(grain, chunk, 0, chunk);
        assert false;
      }
      MulMono(2, n, chunk);
      assert grain >= n * chunk;
      assert Transferred(grain, chunk, BUFFER);
      var k: nat :| Transfers(grain, chunk, k, BUFFER);
      assert k >= 1;
      MulMono(1, k, chunk);
      assert chunk == BUFFER;
      assert grain % BUFFER != 0 ==> Transferred(grain, chunk, n * BUFFER);
    }
  }
}
