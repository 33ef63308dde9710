/** Schedules on the wire that lose something: a thread that runs to the end past what it skipped, and two threads
    whose requests and replies get out of step. */
module WireLoss {
  import opened Geometry
  import opened ResyncSteps
  import opened Wire

  // ---------------------------------------------------------------- one thread moves, the others rest

  /** Thread i has the wire to itself for now. */
  ghost predicate Running(geo: Geometry, dirty: set<nat>, n: Net, i: nat)
    requires geo.Valid()
  {
    && i < |n.stages| && !n.told && !n.done && !n.paused
    && match n.stages[i]
       case Starting(b) => b <= geo.bits && n.replies == []
       case AtHead(b) => b <= geo.bits && n.replies == []
       case AtChunk(b, k) => b < geo.bits && b in dirty && k <= geo.Chunks() && n.replies == []
       case Asking(b, k) =>
         b < geo.bits && b in dirty && k < geo.Chunks() && n.replies == [] && n.header == Header(DATA, Chunk(b, k))
       case Waiting(b, k) => b < geo.bits && b in dirty && k < geo.Chunks() && n.replies == [Chunk(b, k)]
       case Holding(b, k, got) =>
         b < geo.bits && b in dirty && k < geo.Chunks() && n.replies == [] && got == Chunk(b, k)
       case Breaking(b, k) => b < geo.bits && b in dirty && k < geo.Chunks() && n.replies == []
       case Out => n.replies == []
       case AtEnd => n.replies == []
       case Closing => n.replies == [] && n.header.op == TERMINATION
       case _ => false
  }

  /** c is the last chunk of the dirty grains in from..upto-1, or z if there are none. */
  ghost predicate LastChunk(geo: Geometry, dirty: set<nat>, from: nat, upto: nat, z: Chunk, c: Chunk)
    requires geo.Valid()
  {
    && (forall g :: g in dirty && from <= g < upto && (forall h :: h in dirty && g < h ==> h >= upto) ==>
          c == Chunk(g, geo.Chunks() - 1))
    && ((forall g :: g in dirty && from <= g ==> g >= upto) ==> c == z)
  }

  /** The header names the chunk the thread last asked for, if that was in a grain from `from` on, and z before. */
  ghost predicate HeaderKept(geo: Geometry, dirty: set<nat>, from: nat, z: Chunk, s: Stage, c: Chunk)
    requires geo.Valid()
  {
    match s
    case Starting(b) => from <= b && LastChunk(geo, dirty, from, b, z, c)
    case AtHead(b) => from <= b && LastChunk(geo, dirty, from, b, z, c)
    case AtChunk(b, k) => from <= b && if k > 0 then c == Chunk(b, k - 1) else LastChunk(geo, dirty, from, b, z, c)
    case Asking(b, k) => from <= b && c == Chunk(b, k)
    case Waiting(b, k) => from <= b && c == Chunk(b, k)
    case Holding(b, k, _) => from <= b && c == Chunk(b, k)
    case Breaking(b, _) => from <= b + 1 && LastChunk(geo, dirty, from, b + 1, z, c)
    case _ => LastChunk(geo, dirty, from, geo.bits, z, c)
  }

  /** Grains below this are behind the thread. */
  function PlaceOf(geo: Geometry, s: Stage): nat {
    match s
    case Starting(b) => b
    case AtHead(b) => b
    case AtChunk(b, _) => b
    case Asking(b, _) => b
    case Waiting(b, _) => b
    case Holding(b, _, _) => b
    case Breaking(b, _) => b + 1
    case _ => geo.bits
  }

  function Phase(s: Stage): nat {
    match s
    case Out => 3
    case Cancelling => 3
    case AtEnd => 2
    case Closing => 1
    case Closed => 0
    case _ => 4
  }

  function GrainsLeft(geo: Geometry, s: Stage): int {
    match s
    case Starting(b) => 2 * (geo.bits - b) + 2
    case AtHead(b) => 2 * (geo.bits - b) + 1
    case AtChunk(b, _) => 2 * (geo.bits - b)
    case Asking(b, _) => 2 * (geo.bits - b)
    case Waiting(b, _) => 2 * (geo.bits - b)
    case Holding(b, _, _) => 2 * (geo.bits - b)
    case Breaking(b, _) => 2 * (geo.bits - b)
    case _ => 0
  }

  function StepsLeft(geo: Geometry, s: Stage): int
    requires geo.grain > 0
  {
    match s
    case AtChunk(_, k) => 4 * (geo.Chunks() - k) + 3
    case Asking(_, k) => 4 * (geo.Chunks() - k) + 2
    case Waiting(_, k) => 4 * (geo.Chunks() - k) + 1
    case Holding(_, k, _) => 4 * (geo.Chunks() - k)
    case _ => 0
  }

  /** The move brings the thread nearer to its end. */
  ghost predicate Nearer(geo: Geometry, s: Stage, t: Stage)
    requires geo.grain > 0
  {
    || Phase(t) < Phase(s)
    || (Phase(t) == Phase(s) && 0 <= GrainsLeft(geo, t) < GrainsLeft(geo, s))
    || (Phase(t) == Phase(s) && GrainsLeft(geo, t) == GrainsLeft(geo, s) && 0 <= StepsLeft(geo, t) < StepsLeft(geo, s))
  }

  lemma LastChunkStays(geo: Geometry, dirty: set<nat>, from: nat, b: nat, z: Chunk, c: Chunk)
    requires geo.Valid() && from <= b
    requires if b in dirty then c == Chunk(b, geo.Chunks() - 1) else LastChunk(geo, dirty, from, b, z, c)
    ensures LastChunk(geo, dirty, from, b + 1, z, c)
  {
  }

  lemma LastChunkEnds(geo: Geometry, dirty: set<nat>, from: nat, b: nat, z: Chunk, c: Chunk)
    requires geo.Valid() && b >= geo.bits && LastChunk(geo, dirty, from, b, z, c)
    requires forall g :: g in dirty ==> g < geo.bits
    ensures LastChunk(geo, dirty, from, geo.bits, z, c)
  {
  }

  lemma RunningMove(geo: Geometry, snap: seq<Sector>, dirty: set<nat>, n: Net, i: nat)
    requires Sized(geo, snap, n) && Running(geo, dirty, n, i) && n.stages[i] != Closing
    ensures var m := Move(geo, snap, dirty, n, i);
            && Running(geo, dirty, m, i) && m.stages == n.stages[i := m.stages[i]]
            && Nearer(geo, n.stages[i], m.stages[i])
            && PlaceOf(geo, m.stages[i]) >= PlaceOf(geo, n.stages[i])
  {
    hide Write;
  }

  lemma HeaderAtHead(geo: Geometry, snap: seq<Sector>, dirty: set<nat>, n: Net, i: nat, from: nat, z: Chunk)
    requires Sized(geo, snap, n) && Running(geo, dirty, n, i) && n.stages[i] != Closing
    requires HeaderKept(geo, dirty, from, z, n.stages[i], n.header.chunk) && forall g :: g in dirty ==> g < geo.bits
    requires n.stages[i].AtHead?
    ensures var m := Move(geo, snap, dirty, n, i); HeaderKept(geo, dirty, from, z, m.stages[i], m.header.chunk)
  {
    hide LastChunk, Write;
    var b := n.stages[i].bit;
    if b >= geo.bits {
      LastChunkEnds(geo, dirty, from, b, z, n.header.chunk);
    } else if b !in dirty {
      LastChunkStays(geo, dirty, from, b, z, n.header.chunk);
    }
  }

  lemma HeaderAtChunk(geo: Geometry, snap: seq<Sector>, dirty: set<nat>, n: Net, i: nat, from: nat, z: Chunk)
    requires Sized(geo, snap, n) && Running(geo, dirty, n, i) && n.stages[i] != Closing
    requires HeaderKept(geo, dirty, from, z, n.stages[i], n.header.chunk) && forall g :: g in dirty ==> g < geo.bits
    requires n.stages[i].AtChunk?
    ensures var m := Move(geo, snap, dirty, n, i); HeaderKept(geo, dirty, from, z, m.stages[i], m.header.chunk)
  {
    hide LastChunk, Write;
    var b, k := n.stages[i].bit, n.stages[i].k;
    if k == geo.Chunks() {
      LastChunkStays(geo, dirty, from, b, z, n.header.chunk);
    }
  }

  lemma HeaderElsewhere(geo: Geometry, snap: seq<Sector>, dirty: set<nat>, n: Net, i: nat, from: nat, z: Chunk)
    requires Sized(geo, snap, n) && Running(geo, dirty, n, i) && n.stages[i] != Closing
    requires HeaderKept(geo, dirty, from, z, n.stages[i], n.header.chunk) && forall g :: g in dirty ==> g < geo.bits
    requires !n.stages[i].AtHead? && !n.stages[i].AtChunk?
    ensures var m := Move(geo, snap, dirty, n, i); HeaderKept(geo, dirty, from, z, m.stages[i], m.header.chunk)
  {
    hide LastChunk, Write;
  }

  lemma HeaderMove(geo: Geometry, snap: seq<Sector>, dirty: set<nat>, n: Net, i: nat, from: nat, z: Chunk)
    requires Sized(geo, snap, n) && Running(geo, dirty, n, i) && n.stages[i] != Closing
    requires HeaderKept(geo, dirty, from, z, n.stages[i], n.header.chunk) && forall g :: g in dirty ==> g < geo.bits
    ensures var m := Move(geo, snap, dirty, n, i); HeaderKept(geo, dirty, from, z, m.stages[i], m.header.chunk)
  {
    hide LastChunk, Write, Move, HeaderKept;
    if n.stages[i].AtHead? {
      HeaderAtHead(geo, snap, dirty, n, i, from, z);
    } else if n.stages[i].AtChunk? {
      HeaderAtChunk(geo, snap, dirty, n, i, from, z);
    } else {
      HeaderElsewhere(geo, snap, dirty, n, i, from, z);
    }
  }

  /** The moving thread writes the right buffers, ahead of its place. */
  ghost predicate CopiedAhead(geo: Geometry, snap: seq<Sector>, before: seq<Sector>, after: seq<Sector>, place: nat)
    requires geo.grain > 0 && |before| == |after| == |snap|
  {
    forall x: nat :: x < |snap| ==>
      after[x] == before[x] || (after[x] == snap[x] && geo.GrainOf(x) >= place)
  }

  lemma TargetMove(geo: Geometry, snap: seq<Sector>, dirty: set<nat>, n: Net, i: nat, place: nat)
    requires Sized(geo, snap, n) && Running(geo, dirty, n, i) && place <= PlaceOf(geo, n.stages[i])
    ensures CopiedAhead(geo, snap, n.target, Move(geo, snap, dirty, n, i).target, place)
  {
    if n.stages[i].Holding? {
      var b, k := n.stages[i].bit, n.stages[i].k;
      RightWrite(geo, snap, n.target, Chunk(b, k));
      forall x: nat | x < geo.cap && InChunk(geo, x, Chunk(b, k))
        ensures geo.GrainOf(x) == b
      {
        ChunksPartition(geo, x, b, k);
      }
    }
    hide Write;
  }

  /** Alone, a thread runs on until it is about to send its termination. */
  lemma {:induction false} RunOn(geo: Geometry, snap: seq<Sector>, dirty: set<nat>, n: Net, i: nat, from: nat, z: Chunk)
    returns (schedule: seq<nat>)
    requires Sized(geo, snap, n) && Running(geo, dirty, n, i)
    requires HeaderKept(geo, dirty, from, z, n.stages[i], n.header.chunk) && forall g :: g in dirty ==> g < geo.bits
    ensures var m := Moves(geo, snap, dirty, n, schedule);
            && m.stages == n.stages[i := Closing] && m.header.op == TERMINATION && m.replies == []
            && !m.told && !m.done && !m.paused
            && LastChunk(geo, dirty, from, geo.bits, z, m.header.chunk)
            && CopiedAhead(geo, snap, n.target, m.target, PlaceOf(geo, n.stages[i]))
  {
    hide Move, Moves, HeaderKept, LastChunk;
    schedule := [];
    NoneYet(geo, snap, dirty, n);
    var m := n;
    var place := PlaceOf(geo, n.stages[i]);
    while m.stages[i] != Closing
      invariant Sized(geo, snap, m) && m == Moves(geo, snap, dirty, n, schedule)
      invariant Running(geo, dirty, m, i) && |m.stages| == |n.stages| && m.stages == n.stages[i := m.stages[i]]
      invariant HeaderKept(geo, dirty, from, z, m.stages[i], m.header.chunk)
      invariant place <= PlaceOf(geo, m.stages[i])
      invariant CopiedAhead(geo, snap, n.target, m.target, place)
      decreases Phase(m.stages[i]), GrainsLeft(geo, m.stages[i]), StepsLeft(geo, m.stages[i])
    {
      RunningMove(geo, snap, dirty, m, i);
      HeaderMove(geo, snap, dirty, m, i, from, z);
      TargetMove(geo, snap, dirty, m, i, place);
      OneMore(geo, snap, dirty, n, schedule, i);
      m := Move(geo, snap, dirty, m, i);
      schedule := schedule + [i];
    }
    ClosingHeader(geo, dirty, from, z, m.header.chunk);
  }

  lemma ClosingHeader(geo: Geometry, dirty: set<nat>, from: nat, z: Chunk, c: Chunk)
    requires geo.Valid() && HeaderKept(geo, dirty, from, z, Closing, c)
    ensures LastChunk(geo, dirty, from, geo.bits, z, c)
  {
  }

  // ---------------------------------------------------------------- skipping

  lemma AnyHeader(geo: Geometry, dirty: set<nat>, s: Stage, c: Chunk)
    requires geo.Valid() && (s.AtHead? || s.Breaking? || s.Out? || s.AtEnd?) && forall g :: g in dirty ==> g < geo.bits
    ensures HeaderKept(geo, dirty, PlaceOf(geo, s), c, s, c)
  {
  }

  /** A thread that runs to the end past a sector that is not the snapshot's has the server told so. */
  lemma SkippingLoses(geo: Geometry, snap: seq<Sector>, dirty: set<nat>, n: Net, i: nat, x: nat)
    returns (schedule: seq<nat>)
    requires Sized(geo, snap, n) && Running(geo, dirty, n, i)
    requires n.stages[i].AtHead? || n.stages[i].Breaking? || n.stages[i].Out? || n.stages[i].AtEnd?
    requires forall g :: g in dirty ==> g < geo.bits
    requires x < geo.cap && geo.GrainOf(x) in dirty && geo.GrainOf(x) < PlaceOf(geo, n.stages[i])
    requires n.target[x] != snap[x]
    ensures !EndsWell(geo, snap, dirty, n, schedule)
  {
    AnyHeader(geo, dirty, n.stages[i], n.header.chunk);
    hide Moves, HeaderKept;
    schedule := RunOn(geo, snap, dirty, n, i, PlaceOf(geo, n.stages[i]), n.header.chunk);
    OneMore(geo, snap, dirty, n, schedule, i);
    schedule := schedule + [i];
  }

  // ---------------------------------------------------------------- out of step

  /** A snapshot that is 1 in one sector and 0 elsewhere. */
  function Mark(geo: Geometry, x: nat): (r: seq<Sector>)
    ensures |r| == geo.cap
    ensures forall y: nat :: y < |r| ==> r[y] == if y == x then 1 else 0
  {
    seq(geo.cap, y => if y == x then 1 else 0)
  }

  /** Any chunk but its own brings zeros to the sector. */
  lemma WrongBuffer(geo: Geometry, x: nat, target: seq<Sector>, at: Chunk, got: Chunk)
    requires geo.Valid() && x < geo.cap && |target| == geo.cap && at.k < geo.Chunks()
    requires InChunk(geo, x, at) && got != at && got.k < geo.Chunks()
    ensures Write(geo, Mark(geo, x), target, at, got)[x] == 0
  {
    var j := x - geo.Lba(at.bit, at.k);
    if geo.Lba(got.bit, got.k) + j == x {
      InOneChunk(geo, x, at, got);
    }
  }

  lemma OtherChunk(geo: Geometry, snap: seq<Sector>, x: nat, target: seq<Sector>, at: Chunk, got: Chunk)
    requires x < |target| && !InChunk(geo, x, at)
    ensures Write(geo, snap, target, at, got)[x] == target[x]
  {
  }

  predicate Earlier(c: Chunk, d: Chunk) {
    c.bit < d.bit || (c.bit == d.bit && c.k < d.k)
  }

  /** No chunk of a dirty grain from `from` on comes before (b, k). */
  ghost predicate First(dirty: set<nat>, from: nat, b: nat, k: nat) {
    k == 0 && forall g :: g in dirty && from <= g ==> g >= b
  }

  /** Thread j works alone but one reply behind: what it receives for a chunk is the buffer of `late`, the chunk
      asked for before it.  Sector x, once passed, is wrong. */
  ghost predicate Behind(geo: Geometry, dirty: set<nat>, n: Net, j: nat, from: nat, z: Chunk, late: Chunk, x: nat)
    requires geo.Valid() && |n.target| == geo.cap && x < geo.cap
  {
    && j < |n.stages| && !n.done && !n.paused && late.k < geo.Chunks()
    && match n.stages[j]
       case AtHead(b) =>
         && b <= geo.bits && from <= b && !n.told && n.replies == [late] && n.header.op == DATA
         && NotYet(dirty, from, z, late, Chunk(b, 0))
         && (geo.GrainOf(x) < b ==> n.target[x] == 0)
       case AtChunk(b, k) =>
         && b < geo.bits && from <= b && b in dirty && k <= geo.Chunks() && !n.told && n.replies == [late]
         && n.header.op == DATA
         && NotYet(dirty, from, z, late, Chunk(b, k))
         && (Passed(geo, x, b, k) ==> n.target[x] == 0)
       case Asking(b, k) =>
         && b < geo.bits && from <= b && b in dirty && k < geo.Chunks() && !n.told && n.replies == [late]
         && n.header == Header(DATA, Chunk(b, k))
         && NotYet(dirty, from, z, late, Chunk(b, k))
         && (Passed(geo, x, b, k) ==> n.target[x] == 0)
       case Waiting(b, k) =>
         && b < geo.bits && from <= b && b in dirty && k < geo.Chunks() && !n.told && n.replies == [late, Chunk(b, k)]
         && n.header.op == DATA
         && NotYet(dirty, from, z, late, Chunk(b, k))
         && (Passed(geo, x, b, k) ==> n.target[x] == 0)
       case Holding(b, k, got) =>
         && b < geo.bits && from <= b && b in dirty && k < geo.Chunks() && !n.told && n.replies == [Chunk(b, k)]
         && n.header.op == DATA && got == late
         && NotYet(dirty, from, z, late, Chunk(b, k))
         && (Passed(geo, x, b, k) ==> n.target[x] == 0)
       case Out => n.target[x] == 0
       case AtEnd => n.target[x] == 0
       case Closing => n.target[x] == 0 && n.header.op == TERMINATION
       case Closed => n.target[x] == 0 && n.told
       case _ => false
  }

  /** `late` was asked for before c: by this thread, or it is z and c is the thread's first. */
  ghost predicate NotYet(dirty: set<nat>, from: nat, z: Chunk, late: Chunk, c: Chunk) {
    Earlier(late, c) || (late == z && First(dirty, from, c.bit, c.k))
  }

  ghost predicate Passed(geo: Geometry, x: nat, b: nat, k: nat)
    requires geo.grain > 0
  {
    geo.GrainOf(x) < b || (geo.GrainOf(x) == b && ChunkOf(geo, x) < k)
  }

  /** z is no thread's first chunk from `from` on. */
  ghost predicate NotFirst(dirty: set<nat>, from: nat, z: Chunk) {
    forall g :: g in dirty && First(dirty, from, g, 0) && from <= g ==> z != Chunk(g, 0)
  }

  lemma NotOwn(dirty: set<nat>, from: nat, z: Chunk, late: Chunk, b: nat, k: nat)
    requires NotFirst(dirty, from, z) && NotYet(dirty, from, z, late, Chunk(b, k)) && b in dirty && from <= b
    ensures late != Chunk(b, k)
  {
  }

  lemma NotYetMoves(geo: Geometry, dirty: set<nat>, from: nat, z: Chunk, late: Chunk, b: nat)
    requires NotYet(dirty, from, z, late, Chunk(b, 0)) && b !in dirty
    ensures NotYet(dirty, from, z, late, Chunk(b + 1, 0))
  {
  }

  lemma PassedMoves(geo: Geometry, x: nat, b: nat, k: nat)
    requires geo.Valid() && k < geo.Chunks()
    ensures Passed(geo, x, b, k + 1) <==> Passed(geo, x, b, k) || InChunk(geo, x, Chunk(b, k))
    ensures !(Passed(geo, x, b, k) && InChunk(geo, x, Chunk(b, k)))
    ensures Passed(geo, x, b, geo.Chunks()) <==> geo.GrainOf(x) < b + 1
    ensures Passed(geo, x, b, 0) <==> geo.GrainOf(x) < b
  {
    ChunksPartition(geo, x, b, k);
  }

  /** The write of a thread one reply behind. */
  lemma LateWrite(geo: Geometry, x: nat, target: seq<Sector>, b: nat, k: nat, got: Chunk)
    requires geo.Valid() && x < geo.cap && |target| == geo.cap && k < geo.Chunks() && got.k < geo.Chunks()
    requires got != Chunk(b, k) && (Passed(geo, x, b, k) ==> target[x] == 0)
    ensures Passed(geo, x, b, k + 1) ==> Write(geo, Mark(geo, x), target, Chunk(b, k), got)[x] == 0
  {
    PassedMoves(geo, x, b, k);
    if InChunk(geo, x, Chunk(b, k)) {
      WrongBuffer(geo, x, target, Chunk(b, k), got);
    } else {
      OtherChunk(geo, Mark(geo, x), x, target, Chunk(b, k), got);
    }
  }

  /** The chunk the next reply is for, after the move. */
  function LateAfter(s: Stage, late: Chunk): Chunk {
    if s.Holding? then Chunk(s.bit, s.k) else late
  }

  lemma BehindAtHead(geo: Geometry, dirty: set<nat>, n: Net, j: nat, from: nat, z: Chunk, late: Chunk, x: nat)
    requires Sized(geo, Mark(geo, x), n) && x < geo.cap && geo.GrainOf(x) in dirty && j < |n.stages|
    requires Behind(geo, dirty, n, j, from, z, late, x) && NotFirst(dirty, from, z) && !n.stages[j].Closed?
    requires n.stages[j].AtHead?
    ensures var m := Move(geo, Mark(geo, x), dirty, n, j);
            && Behind(geo, dirty, m, j, from, z, LateAfter(n.stages[j], late), x)
            && Nearer(geo, n.stages[j], m.stages[j])
  {
    hide NotFirst, Write;
    var b := n.stages[j].bit;
    GrainInBitmap(geo, x);
    PassedMoves(geo, x, b, 0);
    if b !in dirty {
      NotYetMoves(geo, dirty, from, z, late, b);
    }
    hide NotYet, Passed;
  }

  lemma BehindAtChunk(geo: Geometry, dirty: set<nat>, n: Net, j: nat, from: nat, z: Chunk, late: Chunk, x: nat)
    requires Sized(geo, Mark(geo, x), n) && x < geo.cap && geo.GrainOf(x) in dirty && j < |n.stages|
    requires Behind(geo, dirty, n, j, from, z, late, x) && NotFirst(dirty, from, z) && !n.stages[j].Closed?
    requires n.stages[j].AtChunk?
    ensures var m := Move(geo, Mark(geo, x), dirty, n, j);
            && Behind(geo, dirty, m, j, from, z, LateAfter(n.stages[j], late), x)
            && Nearer(geo, n.stages[j], m.stages[j])
  {
    hide NotFirst, Passed, Write;
    PassedMoves(geo, x, n.stages[j].bit, 0);
  }

  lemma BehindHolding(geo: Geometry, dirty: set<nat>, n: Net, j: nat, from: nat, z: Chunk, late: Chunk, x: nat)
    requires Sized(geo, Mark(geo, x), n) && x < geo.cap && geo.GrainOf(x) in dirty && j < |n.stages|
    requires Behind(geo, dirty, n, j, from, z, late, x) && NotFirst(dirty, from, z) && !n.stages[j].Closed?
    requires n.stages[j].Holding?
    ensures var m := Move(geo, Mark(geo, x), dirty, n, j);
            && Behind(geo, dirty, m, j, from, z, LateAfter(n.stages[j], late), x)
            && Nearer(geo, n.stages[j], m.stages[j])
  {
    hide Write, Passed, NotFirst;
    var b, k, got := n.stages[j].bit, n.stages[j].k, n.stages[j].got;
    NotOwn(dirty, from, z, late, b, k);
    LateWrite(geo, x, n.target, b, k, got);
  }

  lemma BehindElsewhere(geo: Geometry, dirty: set<nat>, n: Net, j: nat, from: nat, z: Chunk, late: Chunk, x: nat)
    requires Sized(geo, Mark(geo, x), n) && x < geo.cap && geo.GrainOf(x) in dirty && j < |n.stages|
    requires Behind(geo, dirty, n, j, from, z, late, x) && NotFirst(dirty, from, z) && !n.stages[j].Closed?
    requires !n.stages[j].AtHead? && !n.stages[j].AtChunk? && !n.stages[j].Holding?
    ensures var m := Move(geo, Mark(geo, x), dirty, n, j);
            && Behind(geo, dirty, m, j, from, z, LateAfter(n.stages[j], late), x)
            && Nearer(geo, n.stages[j], m.stages[j])
  {
    hide NotYet, Passed, NotFirst, Write;
  }

  lemma BehindMove(geo: Geometry, dirty: set<nat>, n: Net, j: nat, from: nat, z: Chunk, late: Chunk, x: nat)
    requires Sized(geo, Mark(geo, x), n) && x < geo.cap && geo.GrainOf(x) in dirty && j < |n.stages|
    requires Behind(geo, dirty, n, j, from, z, late, x) && NotFirst(dirty, from, z) && !n.stages[j].Closed?
    ensures var m := Move(geo, Mark(geo, x), dirty, n, j);
            && Behind(geo, dirty, m, j, from, z, LateAfter(n.stages[j], late), x)
            && Nearer(geo, n.stages[j], m.stages[j])
  {
    hide Move, Behind, NotFirst, NotYet, Passed;
    if n.stages[j].AtHead? {
      BehindAtHead(geo, dirty, n, j, from, z, late, x);
    } else if n.stages[j].AtChunk? {
      BehindAtChunk(geo, dirty, n, j, from, z, late, x);
    } else if n.stages[j].Holding? {
      BehindHolding(geo, dirty, n, j, from, z, late, x);
    } else {
      BehindElsewhere(geo, dirty, n, j, from, z, late, x);
    }
  }

  /** Two threads fall out of step.  Thread i has set the header to its termination; thread j, only just created,
      sets the operation back to a data request; thread i sends that instead, and a reply nobody asked for comes. */
  lemma FallOutOfStep(geo: Geometry, dirty: set<nat>, n: Net, i: nat, j: nat, from: nat, x: nat)
    requires Sized(geo, Mark(geo, x), n) && x < geo.cap && geo.GrainOf(x) >= from
    requires i < |n.stages| && j < |n.stages| && i != j && from <= geo.bits
    requires n.stages[i] == Closing && n.stages[j] == Starting(from)
    requires n.replies == [] && !n.told && !n.done && !n.paused && n.header.chunk.k < geo.Chunks()
    ensures var m := Moves(geo, Mark(geo, x), dirty, n, [j] + [i]);
            Sized(geo, Mark(geo, x), m) && Behind(geo, dirty, m, j, from, n.header.chunk, n.header.chunk, x)
  {
    var snap := Mark(geo, x);
    hide Moves, Write;
    NoneYet(geo, snap, dirty, n);
    OneMore(geo, snap, dirty, n, [], j);
    assert [] + [j] == [j];
    OneMore(geo, snap, dirty, n, [j], i);
    var l := Move(geo, snap, dirty, n, j);
    assert l.stages == n.stages[j := AtHead(from)] && l.header == n.header.(op := DATA);
    var m := Move(geo, snap, dirty, l, i);
    assert m.stages == l.stages[i := Closed] && m.replies == [n.header.chunk];
    hide Move;
  }

  /** From then on thread j is one reply behind: it writes every chunk with the buffer of the one before, and
      then tells the server to terminate. */
  lemma {:induction false} OutOfStep(geo: Geometry, dirty: set<nat>, n: Net, i: nat, j: nat, from: nat, x: nat)
    returns (schedule: seq<nat>)
    requires Sized(geo, Mark(geo, x), n) && x < geo.cap && geo.GrainOf(x) in dirty && geo.GrainOf(x) >= from
    requires i < |n.stages| && j < |n.stages| && i != j && from <= geo.bits
    requires n.stages[i] == Closing && n.stages[j] == Starting(from)
    requires n.replies == [] && !n.told && !n.done && !n.paused
    requires n.header.chunk.k < geo.Chunks() && NotFirst(dirty, from, n.header.chunk)
    ensures !EndsWell(geo, Mark(geo, x), dirty, n, schedule)
  {
    hide Moves, Move, Behind, NotFirst;
    var snap := Mark(geo, x);
    var z := n.header.chunk;
    GrainInBitmap(geo, x);
    FallOutOfStep(geo, dirty, n, i, j, from, x);
    schedule := [j] + [i];
    var m := Moves(geo, snap, dirty, n, schedule);
    var late := z;
    while !m.stages[j].Closed?
      invariant Sized(geo, snap, m) && m == Moves(geo, snap, dirty, n, schedule) && j < |m.stages|
      invariant Behind(geo, dirty, m, j, from, z, late, x)
      decreases Phase(m.stages[j]), GrainsLeft(geo, m.stages[j]), StepsLeft(geo, m.stages[j])
    {
      BehindMove(geo, dirty, m, j, from, z, late, x);
      OneMore(geo, snap, dirty, n, schedule, j);
      late := LateAfter(m.stages[j], late);
      m := Move(geo, snap, dirty, m, j);
      schedule := schedule + [j];
    }
    BehindAtTheEnd(geo, dirty, m, j, from, z, late, x);
  }

  lemma BehindAtTheEnd(geo: Geometry, dirty: set<nat>, n: Net, j: nat, from: nat, z: Chunk, late: Chunk, x: nat)
    requires geo.Valid() && |n.target| == geo.cap && x < geo.cap
    requires j < |n.stages| && n.stages[j].Closed? && Behind(geo, dirty, n, j, from, z, late, x)
    ensures n.told && n.target[x] == 0
  {
  }

  /** The last chunk of several is nobody's first. */
  lemma LastIsNotFirst(geo: Geometry, dirty: set<nat>, from: nat, start: nat, z: Chunk, c: Chunk)
    requires geo.Valid() && start >= from && !OneChunkFrom(geo, dirty, from)
    requires forall h :: h in dirty ==> h < geo.bits
    requires (exists g :: g in dirty && g >= start) || (z.k < geo.Chunks() && NotFirst(dirty, from, z))
    requires LastChunk(geo, dirty, start, geo.bits, z, c)
    ensures c.k < geo.Chunks() && NotFirst(dirty, from, c)
  {
    if g :| g in dirty && g >= start {
      var top := Highest(dirty, g);
      assert c == Chunk(top, geo.Chunks() - 1);
    }
  }

  /** The highest dirty grain. */
  lemma Highest(dirty: set<nat>, g: nat) returns (top: nat)
    requires g in dirty
    ensures top in dirty && top >= g && forall h :: h in dirty ==> h <= top
    decreases |dirty|
  {
    if h :| h in dirty && h > g {
      var rest := dirty - {g};
      top := Highest(rest, h);
      assert dirty == rest + {g};
    } else {
      top := g;
    }
  }

  /** Two threads, one to begin at `from`, the other with work from `start` on still to do, or with a chunk in the
      header that is not the first from `from` on: whatever sector there is to transfer, some schedule leaves it
      wrong. */
  lemma {:induction false} TwoThreadsLose(geo: Geometry, dirty: set<nat>, n: Net, i: nat, j: nat, from: nat, start: nat,
                                          z: Chunk, x: nat) returns (schedule: seq<nat>)
    requires Sized(geo, Mark(geo, x), n) && (forall g :: g in dirty ==> g < geo.bits)
    requires x < geo.cap && geo.GrainOf(x) in dirty && geo.GrainOf(x) >= from && start >= from && from <= geo.bits
    requires (exists g :: g in dirty && g >= start) || (z.k < geo.Chunks() && NotFirst(dirty, from, z))
    requires Running(geo, dirty, n, i) && HeaderKept(geo, dirty, start, z, n.stages[i], n.header.chunk)
    requires i < |n.stages| && j < |n.stages| && i != j && n.stages[j] == Starting(from)
    requires !OneChunkFrom(geo, dirty, from)
    ensures !EndsWell(geo, Mark(geo, x), dirty, n, schedule)
  {
    var snap := Mark(geo, x);
    hide Moves, Move, Running, HeaderKept, OneChunkFrom, NotFirst;
    var first := RunOn(geo, snap, dirty, n, i, start, z);
    var m := Moves(geo, snap, dirty, n, first);
    LastIsNotFirst(geo, dirty, from, start, z, m.header.chunk);
    var second := OutOfStep(geo, dirty, m, i, j, from, x);
    Joined(geo, snap, dirty, n, first, second);
    schedule := first + second;
  }
}
