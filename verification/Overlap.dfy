/** Resuming a round whose old thread is still there.  The code does not test for one: both threads then work
    on the same client, over one request header and one socket. */
module Overlap {
  import opened Geometry
  import opened ResyncSteps
  import opened Resume
  import opened Straight
  import opened Wire
  import opened WireLoss
  import opened WireSafety

  // ---------------------------------------------------------------- the moment of the resume

  /** The step system's place for a place on the wire. */
  function PlaceInSteps(s: Stage): Thread {
    match s
    case Gone => NotRunning
    case Starting(b) => Head(b)
    case AtHead(b) => Head(b)
    case AtChunk(b, k) => InGrain(b, k)
    case Asking(b, k) => InGrain(b, k)
    case Waiting(b, k) => InGrain(b, k)
    case Holding(b, k, _) => InGrain(b, k)
    case Breaking(b, k) => InGrain(b, k)
    case Out => OutOfLoop
    case Cancelling => OutOfLoop
    case _ => Ending
  }

  /** The places a thread can have in a round that is resumed at bit `last`, before the server is told to
      terminate. */
  ghost predicate PlaceFits(geo: Geometry, dirty: set<nat>, last: nat, s: Stage)
    requires geo.grain > 0
  {
    match s
    case Gone => true
    case Starting(b) => b == last
    case AtHead(b) => b <= geo.bits && last <= b <= last + 1
    case AtChunk(b, k) => b < geo.bits && last <= b <= last + 1 && b in dirty && k <= geo.Chunks()
    case Asking(b, k) => b < geo.bits && last <= b <= last + 1 && b in dirty && k < geo.Chunks()
    case Waiting(b, k) => b < geo.bits && last <= b <= last + 1 && b in dirty && k < geo.Chunks()
    case Holding(b, k, got) =>
      b < geo.bits && last <= b <= last + 1 && b in dirty && k < geo.Chunks() && got == Chunk(b, k)
    case Breaking(b, k) => b < geo.bits && last <= b <= last + 1 && b in dirty && k < geo.Chunks()
    case Out => true
    case Cancelling => true
    case AtEnd => last == geo.bits - 1
    case Closing => last == geo.bits - 1
    case Closed => false
  }

  /** The thread has set the header for the chunk at its place. */
  predicate HasAsked(s: Stage) {
    s.Asking? || s.Waiting? || s.Holding? || s.Breaking?
  }

  /** The header and the replies as the old thread, alone so far, has left them. */
  predicate WireLeft(c: Client, s: Stage, h: Header, replies: seq<Chunk>) {
    && (h.op == TERMINATION <==> s.Closing?)
    && h.chunk == (if HasAsked(s) then Chunk(s.bit, s.k) else c.asked)
    && (s.Asking? ==> h.op == DATA)
    && replies == if s.Waiting? then [Chunk(s.bit, s.k)] else []
  }

  /** The old thread at its place, and the one the resume command creates. */
  function Resumed(c: Client, s: Stage, h: Header, replies: seq<Chunk>): Net {
    Net(c.target, h, replies, false, false, false, [s, Starting(c.last)])
  }

  /** In a paused round at position `last` with the old thread at s, whatever is on the disks, a resume leads to
      no loss. */
  ghost predicate MayResumeNow(geo: Geometry, dirty: set<nat>, last: nat, s: Stage) {
    forall snap, c, h, replies :: ResumesWell(geo, snap, dirty, last, s, c, h, replies)
  }

  ghost predicate ResumesWell(geo: Geometry, snap: seq<Sector>, dirty: set<nat>, last: nat, s: Stage, c: Client,
                              h: Header, replies: seq<Chunk>) {
    && Open(geo, snap, dirty, c) && c.paused && c.mode == NO_RESYNC && c.last == last && c.thread == PlaceInSteps(s)
    && WireLeft(c, s, h, replies)
    ==> AllEndWell(geo, snap, dirty, Resumed(c, s, h, replies))
  }

  /** The old thread has moved on past this sector, breaks off its grain, or is about to cancel a thread, which is
      now the new one, without having transferred it. */
  predicate SkipsSector(geo: Geometry, last: nat, s: Stage, x: nat)
    requires geo.grain > 0
  {
    match s
    case AtHead(b) => last <= geo.GrainOf(x) < b
    case Breaking(b, k) => geo.GrainOf(x) == b && ChunkOf(geo, x) >= k
    case Out => last <= geo.GrainOf(x) < geo.bits
    case Cancelling => last <= geo.GrainOf(x) < geo.bits
    case _ => false
  }

  ghost predicate Skips(geo: Geometry, dirty: set<nat>, last: nat, s: Stage)
    requires geo.grain > 0
  {
    exists x: nat :: x < geo.cap && geo.GrainOf(x) in dirty && SkipsSector(geo, last, s, x)
  }

  // ---------------------------------------------------------------- losing

  function PausedClient(dirty: set<nat>, last: nat, t: Thread, asked: Chunk, target: seq<Sector>): Client {
    Client(t, NO_RESYNC, true, Up, Pause, true, true, dirty, dirty, last, last, [Row(last, Pause)], asked, target, 0)
  }

  /** The target of a client whose old thread is at s: right as far as it must be. */
  function LeftTarget(geo: Geometry, last: nat, s: Stage): (r: seq<Sector>)
    requires geo.grain > 0
    ensures |r| == geo.cap
    ensures forall x: nat :: x < |r| ==> r[x] == if SkipsSector(geo, last, s, x) then 0 else 1
  {
    seq(geo.cap, x requires 0 <= x < geo.cap => if SkipsSector(geo, last, s, x) then 0 else 1)
  }

  /** The old thread skips a sector, and finishes before the new one comes to it. */
  lemma SkipIsLost(geo: Geometry, dirty: set<nat>, last: nat, s: Stage)
    requires geo.Valid() && last < geo.bits && (forall g :: g in dirty ==> g < geo.bits)
    requires PlaceFits(geo, dirty, last, s) && Skips(geo, dirty, last, s)
    ensures !MayResumeNow(geo, dirty, last, s)
  {
    var x: nat :| x < geo.cap && geo.GrainOf(x) in dirty && SkipsSector(geo, last, s, x);
    var snap: seq<Sector> := seq(geo.cap, i => 1);
    var c := PausedClient(dirty, last, PlaceInSteps(s), AskedAt(geo, last, s), LeftTarget(geo, last, s));
    var h := HeaderAt(geo, last, s);
    assert Open(geo, snap, dirty, c);
    var n := Resumed(c, s, h, []);
    hide Open;
    var schedule;
    if s.Cancelling? {
      schedule := CancellingLoses(geo, snap, dirty, n, x);
    } else {
      schedule := SkippingLoses(geo, snap, dirty, n, 0, x);
    }
    assert !AllEndWell(geo, snap, dirty, n);
    assert WireLeft(c, s, h, []);
    assert !ResumesWell(geo, snap, dirty, last, s, c, h, []);
  }

  /** The old thread cancels the new one, and terminates. */
  lemma CancellingLoses(geo: Geometry, snap: seq<Sector>, dirty: set<nat>, n: Net, x: nat) returns (schedule: seq<nat>)
    requires Wire.Sized(geo, snap, n) && |n.stages| == 2 && n.stages[0] == Cancelling && n.replies == []
    requires !n.told && !n.done && !n.paused && forall g :: g in dirty ==> g < geo.bits
    requires x < geo.cap && geo.GrainOf(x) in dirty && n.target[x] != snap[x]
    ensures !EndsWell(geo, snap, dirty, n, schedule)
  {
    NoneYet(geo, snap, dirty, n);
    OneMore(geo, snap, dirty, n, [], 0);
    var m := Moves(geo, snap, dirty, n, [] + [0]);
    assert m == n.(stages := [AtEnd, Gone]);
    hide Moves;
    var rest := SkippingLoses(geo, snap, dirty, m, 0, x);
    Joined(geo, snap, dirty, n, [] + [0], rest);
    schedule := [] + [0] + rest;
  }

  /** The bit from which the old thread's work is still its own. */
  function OwnFrom(geo: Geometry, last: nat, s: Stage): nat {
    match s
    case AtEnd => last
    case Closing => last
    case _ => PlaceOf(geo, s)
  }

  function AskedAt(geo: Geometry, last: nat, s: Stage): Chunk
    requires geo.Valid()
  {
    match s
    case AtChunk(b, k) => if k > 0 then Chunk(b, k - 1) else Chunk(0, 0)
    case Asking(b, k) => if k > 0 then Chunk(b, k - 1) else Chunk(0, 0)
    case Waiting(b, k) => if k > 0 then Chunk(b, k - 1) else Chunk(0, 0)
    case Holding(b, k, _) => if k > 0 then Chunk(b, k - 1) else Chunk(0, 0)
    case Breaking(b, k) => if k > 0 then Chunk(b, k - 1) else Chunk(0, 0)
    case AtEnd => Chunk(last, geo.Chunks() - 1)
    case Closing => Chunk(last, geo.Chunks() - 1)
    case _ => Chunk(0, 0)
  }

  function HeaderAt(geo: Geometry, last: nat, s: Stage): Header
    requires geo.Valid()
  {
    Header(if s.Closing? then TERMINATION else DATA,
           if HasAsked(s) then Chunk(s.bit, s.k) else AskedAt(geo, last, s))
  }

  function RepliesAt(s: Stage): seq<Chunk> {
    if s.Waiting? then [Chunk(s.bit, s.k)] else []
  }

  /** The old thread has work of its own, or the header it leaves is not for the new one's first chunk. */
  lemma OwnWork(geo: Geometry, dirty: set<nat>, last: nat, s: Stage, x: nat)
    requires geo.Valid() && last < geo.bits && (forall g :: g in dirty ==> g < geo.bits)
    requires PlaceFits(geo, dirty, last, s) && !s.Gone? && !Skips(geo, dirty, last, s)
    requires x < geo.cap && geo.GrainOf(x) in dirty && geo.GrainOf(x) >= last
    ensures !s.Out? && !s.Cancelling? && last <= OwnFrom(geo, last, s) <= geo.bits
    ensures var z := HeaderAt(geo, last, s).chunk;
            (exists g :: g in dirty && g >= OwnFrom(geo, last, s)) || (z.k < geo.Chunks() && NotFirst(dirty, last, z))
  {
    GrainInBitmap(geo, x);
    assert !SkipsSector(geo, last, s, x);
    if s.AtChunk? || s.Asking? || s.Waiting? || s.Holding? {
      assert s.bit in dirty;
    }
    if s.Breaking? && geo.GrainOf(x) == s.bit {
      assert s.k > 0;
    }
  }

  /** Two threads with more than one chunk to transfer get out of step. */
  lemma TransferIsLost(geo: Geometry, dirty: set<nat>, last: nat, s: Stage, x: nat)
    requires geo.Valid() && last < geo.bits && (forall g :: g in dirty ==> g < geo.bits)
    requires PlaceFits(geo, dirty, last, s) && !s.Gone? && !Skips(geo, dirty, last, s)
    requires x < geo.cap && geo.GrainOf(x) in dirty && geo.GrainOf(x) >= last && !OneChunkFrom(geo, dirty, last)
    ensures !MayResumeNow(geo, dirty, last, s)
  {
    OwnWork(geo, dirty, last, s, x);
    var start := OwnFrom(geo, last, s);
    var snap := Mark(geo, x);
    var c := PausedClient(dirty, last, PlaceInSteps(s), AskedAt(geo, last, s), snap);
    var h, replies := HeaderAt(geo, last, s), RepliesAt(s);
    assert Open(geo, snap, dirty, c);
    var n := Resumed(c, s, h, replies);
    assert Running(geo, dirty, n, 0);
    assert HeaderKept(geo, dirty, start, h.chunk, s, h.chunk);
    assert WireLeft(c, s, h, replies);
    hide Open, Running, HeaderKept, OneChunkFrom;
    hide NotFirst;
    var schedule := TwoThreadsLose(geo, dirty, n, 0, 1, last, start, h.chunk, x);
    assert !AllEndWell(geo, snap, dirty, n);
    assert !ResumesWell(geo, snap, dirty, last, s, c, h, replies);
  }

  // ---------------------------------------------------------------- not losing

  lemma GoneIsSafe(geo: Geometry, snap: seq<Sector>, dirty: set<nat>, c: Client, h: Header)
    requires Open(geo, snap, dirty, c)
    ensures AllEndWell(geo, snap, dirty, Resumed(c, Gone, h, []))
  {
    var n := Resumed(c, Gone, h, []);
    forall schedule
      ensures EndsWell(geo, snap, dirty, n, schedule)
    {
      LoneIsSafe(geo, snap, dirty, n, 1, schedule);
    }
  }

  lemma NoSectorIsSafe(geo: Geometry, snap: seq<Sector>, dirty: set<nat>, c: Client, s: Stage, h: Header,
                       replies: seq<Chunk>)
    requires Open(geo, snap, dirty, c) && PlaceFits(geo, dirty, c.last, s) && !SectorFrom(geo, dirty, c.last)
    ensures AllEndWell(geo, snap, dirty, Resumed(c, s, h, replies))
  {
    var n := Resumed(c, s, h, replies);
    assert AllWithin(geo, dirty, c.last, n);
    forall schedule
      ensures EndsWell(geo, snap, dirty, n, schedule)
    {
      SectorlessIsSafe(geo, snap, dirty, c.last, n, schedule);
    }
  }

  /** One chunk to transfer: the old thread is before it, or has named it in the header and got it right. */
  lemma OneChunkIsSafe(geo: Geometry, snap: seq<Sector>, dirty: set<nat>, c: Client, s: Stage, h: Header,
                       replies: seq<Chunk>, g: nat)
    requires Open(geo, snap, dirty, c) && c.paused && c.thread == PlaceInSteps(s) && PlaceFits(geo, dirty, c.last, s)
    requires WireLeft(c, s, h, replies)
    requires geo.Chunks() == 1 && g in dirty && g >= c.last && forall k :: k in dirty && k >= c.last ==> k == g
    requires || ((s.AtHead? ==> s.bit <= g) && !s.Breaking? && !s.Out? && !s.Cancelling?)
             || (Right(geo, snap, c.target, g) && c.asked == Chunk(g, 0))
    ensures AllEndWell(geo, snap, dirty, Resumed(c, s, h, replies))
  {
    var n := Resumed(c, s, h, replies);
    assert AllWithin(geo, dirty, c.last, n);
    GrainOfChunk(geo, g);
    assert Single(geo, snap, dirty, c.last, g, n);
    hide Single, Open;
    forall schedule
      ensures EndsWell(geo, snap, dirty, n, schedule)
    {
      SingleIsSafe(geo, snap, dirty, c.last, g, n, schedule);
    }
  }

  lemma GrainOfChunk(geo: Geometry, g: nat)
    requires geo.Valid() && geo.Chunks() == 1
    ensures forall x: nat :: geo.GrainOf(x) == g ==> ChunkOf(geo, x) < 1
  {
    forall x: nat | geo.GrainOf(x) == g
      ensures ChunkOf(geo, x) < 1
    {
      ChunksPartition(geo, x, g, 0);
    }
  }

  // ---------------------------------------------------------------- when a resume need not wait

  /** Whatever is on the disks, a resume in a paused round leads to no loss if and only if the old thread is
      gone, or no sector is to be transferred from the resume position on, or one chunk is and the old thread
      has not skipped it. */
  lemma {:induction false} MayResumeNowIff(geo: Geometry, dirty: set<nat>, last: nat, s: Stage)
    requires geo.Valid() && last < geo.bits && (forall g :: g in dirty ==> g < geo.bits)
    requires PlaceFits(geo, dirty, last, s)
    ensures MayResumeNow(geo, dirty, last, s) <==>
              || s.Gone?
              || !SectorFrom(geo, dirty, last)
              || (OneChunkFrom(geo, dirty, last) && !Skips(geo, dirty, last, s))
  {
    if !s.Gone? && SectorFrom(geo, dirty, last) {
      var x: nat :| x < geo.cap && geo.GrainOf(x) in dirty && geo.GrainOf(x) >= last;
      if Skips(geo, dirty, last, s) {
        SkipIsLost(geo, dirty, last, s);
      } else if !OneChunkFrom(geo, dirty, last) {
        TransferIsLost(geo, dirty, last, s, x);
      } else {
        forall snap, c, h, replies
          ensures ResumesWell(geo, snap, dirty, last, s, c, h, replies)
        {
          if Open(geo, snap, dirty, c) && c.paused && c.last == last && c.thread == PlaceInSteps(s)
             && WireLeft(c, s, h, replies) {
            GrainInBitmap(geo, x);
            OneChunkIsSafe(geo, snap, dirty, c, s, h, replies, geo.GrainOf(x));
          }
        }
      }
    } else {
      forall snap, c, h, replies
        ensures ResumesWell(geo, snap, dirty, last, s, c, h, replies)
      {
        if Open(geo, snap, dirty, c) && c.last == last && WireLeft(c, s, h, replies) {
          if s.Gone? {
            GoneIsSafe(geo, snap, dirty, c, h);
          } else {
            NoSectorIsSafe(geo, snap, dirty, c, s, h, replies);
          }
        }
      }
    }
  }
}
