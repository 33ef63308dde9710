/** Resync threads on the wire.  All threads of a client share one request header and one socket, and take a
    chunk in steps: set the header, send it, receive a buffer, write it.  The steps are those of
    `restart_resync` and `replication_terminate` while no further command or failure comes.  A thread that
    means to cancel itself cancels the one created last. */
module Wire {
  import opened Geometry
  import opened ResyncSteps

  datatype Opcode = DATA | TERMINATION | OTHER

  datatype Header = Header(op: Opcode, chunk: Chunk)

  /** Where a thread stands. */
  datatype Stage =
    | Gone
    | Starting(bit: nat)                      // created, to begin at this bit
    | AtHead(bit: nat)                        // at the test of the while loop
    | AtChunk(bit: nat, k: nat)               // at the head of the for loop
    | Asking(bit: nat, k: nat)                // has set the header
    | Waiting(bit: nat, k: nat)               // has sent it
    | Holding(bit: nat, k: nat, got: Chunk)   // has received the buffer of chunk `got`
    | Breaking(bit: nat, k: nat)              // has left the for loop because of a pause, with the header set
    | Out                                     // below the while loop
    | Cancelling                              // has found the round paused there
    | AtEnd                                   // past the test for a pause
    | Closing                                 // has set the header to termination
    | Closed                                  // has sent that, and is about to release everything

  datatype Net = Net(
    target: seq<Sector>,
    header: Header,
    replies: seq<Chunk>,     // chunks whose buffers the server has sent and nobody has received
    told: bool,              // the server has received a termination
    done: bool,              // RESYNC_COMPLETED, the IO object released
    paused: bool,
    stages: seq<Stage>)      // in the order of creation

  ghost predicate Sized(geo: Geometry, snap: seq<Sector>, n: Net) {
    geo.Valid() && |snap| == geo.cap == |n.target|
  }

  /** The server's buffer for a chunk: zeros where the device has ended. */
  function Buffer(geo: Geometry, snap: seq<Sector>, c: Chunk): (r: seq<Sector>)
    ensures |r| == BUFFER
  {
    var lba := geo.Lba(c.bit, c.k);
    seq(BUFFER, j requires 0 <= j < BUFFER => if lba + j < |snap| then snap[lba + j] else 0)
  }

  /** That buffer, written where the chunk `at` goes. */
  function Write(geo: Geometry, snap: seq<Sector>, target: seq<Sector>, at: Chunk, got: Chunk): (r: seq<Sector>)
    ensures |r| == |target|
    ensures forall x: nat :: x < |r| ==>
      r[x] == var lba := geo.Lba(at.bit, at.k);
              if lba <= x < lba + BUFFER then Buffer(geo, snap, got)[x - lba] else target[x]
  {
    var lba := geo.Lba(at.bit, at.k);
    seq(|target|, x requires 0 <= x < |target| =>
      if lba <= x < lba + BUFFER then Buffer(geo, snap, got)[x - lba] else target[x])
  }

  /** The header goes out as it stands.  A server that has been told to terminate answers no requests. */
  function Send(n: Net): Net {
    match n.header.op
    case DATA => if n.told then n else n.(replies := n.replies + [n.header.chunk])
    case TERMINATION => n.(told := true)
    case OTHER => n
  }

  function At(n: Net, i: nat, s: Stage): Net
    requires i < |n.stages|
  {
    n.(stages := n.stages[i := s])
  }

  /** Thread i cancels the one created last; if that is another, it goes on itself. */
  function Cancel(n: Net, i: nat): (m: Net)
    requires i < |n.stages|
    ensures m == n.(stages := m.stages) && |m.stages| == |n.stages|
    ensures m.stages[i] == if i == |n.stages| - 1 then Gone else AtEnd
    ensures forall j :: 0 <= j < |n.stages| && j != i ==> m.stages[j] == if j == |n.stages| - 1 then Gone else n.stages[j]
  {
    var last := |n.stages| - 1;
    At(At(n, last, Gone), i, if i == last then Gone else AtEnd)
  }

  /** The next step of thread i. */
  function Move(geo: Geometry, snap: seq<Sector>, dirty: set<nat>, n: Net, i: nat): (m: Net)
    requires Sized(geo, snap, n)
    ensures Sized(geo, snap, m) && |m.stages| == |n.stages|
    ensures m.paused == n.paused
  {
    if i >= |n.stages| then n
    else
      match n.stages[i]
      case Gone => n
      case Starting(b) => At(n.(header := n.header.(op := DATA)), i, AtHead(b))
      case AtHead(b) =>
        if b >= geo.bits || n.paused then At(n, i, Out) else At(n, i, if b in dirty then AtChunk(b, 0) else AtHead(b + 1))
      case AtChunk(b, k) =>
        if k < geo.Chunks() then At(n.(header := Header(DATA, Chunk(b, k))), i, Asking(b, k))
        else At(n, i, AtHead(b + 1))
      case Asking(b, k) =>
        if n.paused then At(n, i, Breaking(b, k))
        else if n.done then At(n, i, Gone)
        else At(Send(n), i, Waiting(b, k))
      case Waiting(b, k) =>
        if n.replies == [] then n else At(n.(replies := n.replies[1..]), i, Holding(b, k, n.replies[0]))
      case Holding(b, k, got) =>
        At(n.(target := Write(geo, snap, n.target, Chunk(b, k), got)), i, AtChunk(b, k + 1))
      case Breaking(b, _) => At(n, i, AtHead(b + 1))
      case Out => At(n, i, if n.paused then Cancelling else AtEnd)
      case Cancelling => Cancel(n, i)
      case AtEnd => if n.done then At(n, i, Gone) else At(n.(header := n.header.(op := TERMINATION)), i, Closing)
      case Closing => At(Send(n), i, Closed)
      case Closed => At(n.(done := true), i, Gone)
  }

  /** The other threads stay where they are, but for one that is cancelled. */
  lemma OthersStay(geo: Geometry, snap: seq<Sector>, dirty: set<nat>, n: Net, i: nat)
    requires Sized(geo, snap, n)
    ensures var m := Move(geo, snap, dirty, n, i);
            forall j :: 0 <= j < |n.stages| && j != i ==>
              m.stages[j] == n.stages[j] || (i < |n.stages| && n.stages[i].Cancelling? && m.stages[j] == Gone)
  {
    hide Write;
  }

  function Moves(geo: Geometry, snap: seq<Sector>, dirty: set<nat>, n: Net, schedule: seq<nat>): (m: Net)
    requires Sized(geo, snap, n)
    ensures Sized(geo, snap, m) && |m.stages| == |n.stages| && m.paused == n.paused
  {
    if schedule == [] then n
    else
      Move(geo, snap, dirty, Moves(geo, snap, dirty, n, schedule[..|schedule| - 1]), schedule[|schedule| - 1])
  }

  /** If the server is told to terminate, every dirty grain is the snapshot's. */
  ghost predicate EndsWell(geo: Geometry, snap: seq<Sector>, dirty: set<nat>, n: Net, schedule: seq<nat>)
    requires Sized(geo, snap, n)
  {
    var m := Moves(geo, snap, dirty, n, schedule);
    m.told ==> DoneBelow(geo, snap, dirty, m.target, geo.bits)
  }

  ghost predicate AllEndWell(geo: Geometry, snap: seq<Sector>, dirty: set<nat>, n: Net)
    requires Sized(geo, snap, n)
  {
    forall schedule :: EndsWell(geo, snap, dirty, n, schedule)
  }

  lemma OneMore(geo: Geometry, snap: seq<Sector>, dirty: set<nat>, n: Net, schedule: seq<nat>, i: nat)
    requires Sized(geo, snap, n)
    ensures Moves(geo, snap, dirty, n, schedule + [i]) == Move(geo, snap, dirty, Moves(geo, snap, dirty, n, schedule), i)
  {
    assert (schedule + [i])[..|schedule|] == schedule;
    hide Move;
  }

  lemma NoneYet(geo: Geometry, snap: seq<Sector>, dirty: set<nat>, n: Net)
    requires Sized(geo, snap, n)
    ensures Moves(geo, snap, dirty, n, []) == n
  {
  }

  lemma {:induction false} Joined(geo: Geometry, snap: seq<Sector>, dirty: set<nat>, n: Net, s: seq<nat>, t: seq<nat>)
    requires Sized(geo, snap, n)
    ensures Moves(geo, snap, dirty, n, s + t) == Moves(geo, snap, dirty, Moves(geo, snap, dirty, n, s), t)
  {
    hide Moves, Move;
    var m := Moves(geo, snap, dirty, n, s);
    if t == [] {
      assert s + t == s;
      NoneYet(geo, snap, dirty, m);
    } else {
      var front, i := t[..|t| - 1], t[|t| - 1];
      Joined(geo, snap, dirty, n, s, front);
      OneMore(geo, snap, dirty, n, s + front, i);
      OneMore(geo, snap, dirty, m, front, i);
      assert s + t == s + front + [i];
      assert t == front + [i];
    }
  }

  // ---------------------------------------------------------------- chunks

  /** The right buffer in the right place is the transfer of the step system. */
  lemma {:induction false} RightWrite(geo: Geometry, snap: seq<Sector>, target: seq<Sector>, c: Chunk)
    requires |target| == |snap|
    ensures Write(geo, snap, target, c, c) ==
            Copied(target, snap, geo.Lba(c.bit, c.k), geo.Lba(c.bit, c.k) + BUFFER)
  {
    var w := Write(geo, snap, target, c, c);
    var r := Copied(target, snap, geo.Lba(c.bit, c.k), geo.Lba(c.bit, c.k) + BUFFER);
    forall x: nat | x < |target|
      ensures w[x] == r[x]
    {
    }
  }

  /** The sector is in the chunk. */
  predicate InChunk(geo: Geometry, x: nat, c: Chunk) {
    geo.Lba(c.bit, c.k) <= x < geo.Lba(c.bit, c.k) + BUFFER
  }

  /** A sector is in one chunk only. */
  lemma InOneChunk(geo: Geometry, x: nat, c: Chunk, d: Chunk)
    requires geo.Valid() && c.k < geo.Chunks() && d.k < geo.Chunks() && InChunk(geo, x, c) && InChunk(geo, x, d)
    ensures c == d && c.bit == geo.GrainOf(x)
  {
    ChunksPartition(geo, x, c.bit, c.k);
    ChunksPartition(geo, x, d.bit, d.k);
  }

  /** Some dirty grain from `from` on holds a sector. */
  ghost predicate SectorFrom(geo: Geometry, dirty: set<nat>, from: nat)
    requires geo.grain > 0
  {
    exists x: nat :: x < geo.cap && geo.GrainOf(x) in dirty && geo.GrainOf(x) >= from
  }

  /** At most one chunk is to be transferred from `from` on. */
  ghost predicate OneChunkFrom(geo: Geometry, dirty: set<nat>, from: nat)
    requires geo.grain > 0
  {
    || (forall g :: g in dirty ==> g < from)
    || (geo.Chunks() == 1 && forall g, h :: g in dirty && h in dirty && g >= from && h >= from ==> g == h)
  }
}
