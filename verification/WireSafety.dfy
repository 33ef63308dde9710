/** Threads on the wire that lose nothing, under every schedule: a thread that has the wire to itself, and any
    number of threads that have only one chunk to transfer, or none that holds a sector. */
module WireSafety {
  import opened Geometry
  import opened ResyncSteps
  import opened Resume
  import opened Wire

  // ---------------------------------------------------------------- a lone thread

  /** Thread i is the only one left; the wire and the target are as its place says. */
  ghost predicate Lone(geo: Geometry, snap: seq<Sector>, dirty: set<nat>, n: Net, i: nat) {
    && Sized(geo, snap, n) && i < |n.stages| && !n.paused
    && (forall j :: 0 <= j < |n.stages| && j != i ==> n.stages[j] == Gone)
    && (n.told ==> DoneBelow(geo, snap, dirty, n.target, geo.bits))
    && LoneStage(geo, snap, dirty, n, n.stages[i])
  }

  ghost predicate LoneStage(geo: Geometry, snap: seq<Sector>, dirty: set<nat>, n: Net, s: Stage)
    requires Sized(geo, snap, n)
  {
    match s
    case Gone => true
    case Starting(b) => !n.told && n.replies == [] && DoneBelow(geo, snap, dirty, n.target, b)
    case AtHead(b) => !n.told && n.replies == [] && DoneBelow(geo, snap, dirty, n.target, b)
    case AtChunk(b, k) => !n.told && n.replies == [] && InGrainAt(geo, snap, dirty, n, b, k)
    case Asking(b, k) =>
      !n.told && n.replies == [] && n.header == Header(DATA, Chunk(b, k)) && InGrainAt(geo, snap, dirty, n, b, k)
      && k < geo.Chunks()
    case Waiting(b, k) =>
      !n.told && n.replies == [Chunk(b, k)] && InGrainAt(geo, snap, dirty, n, b, k) && k < geo.Chunks()
    case Holding(b, k, got) =>
      !n.told && n.replies == [] && got == Chunk(b, k) && InGrainAt(geo, snap, dirty, n, b, k) && k < geo.Chunks()
    case Breaking(_, _) => false
    case Out => DoneBelow(geo, snap, dirty, n.target, geo.bits)
    case Cancelling => false
    case AtEnd => DoneBelow(geo, snap, dirty, n.target, geo.bits)
    case Closing => DoneBelow(geo, snap, dirty, n.target, geo.bits)
    case Closed => DoneBelow(geo, snap, dirty, n.target, geo.bits)
  }

  ghost predicate InGrainAt(geo: Geometry, snap: seq<Sector>, dirty: set<nat>, n: Net, b: nat, k: nat)
    requires Sized(geo, snap, n)
  {
    && k <= geo.Chunks()
    && DoneBelow(geo, snap, dirty, n.target, b) && ChunksDone(geo, snap, n.target, b, k)
  }

  /** Writing the right buffer brings the grain one chunk on. */
  lemma RightChunk(geo: Geometry, snap: seq<Sector>, dirty: set<nat>, n: Net, b: nat, k: nat)
    requires Sized(geo, snap, n) && InGrainAt(geo, snap, dirty, n, b, k) && k < geo.Chunks()
    ensures var t := Write(geo, snap, n.target, Chunk(b, k), Chunk(b, k));
            DoneBelow(geo, snap, dirty, t, b) && ChunksDone(geo, snap, t, b, k + 1)
  {
    RightWrite(geo, snap, n.target, Chunk(b, k));
    var t := Write(geo, snap, n.target, Chunk(b, k), Chunk(b, k));
    forall s: nat | s < |t| && geo.GrainOf(s) == b && ChunkOf(geo, s) < k + 1
      ensures t[s] == snap[s]
    {
      ChunksPartition(geo, s, b, k);
    }
  }

  lemma LoneMove(geo: Geometry, snap: seq<Sector>, dirty: set<nat>, n: Net, i: nat)
    requires Lone(geo, snap, dirty, n, i)
    ensures Lone(geo, snap, dirty, Move(geo, snap, dirty, n, i), i)
  {
    OthersStay(geo, snap, dirty, n, i);
    match n.stages[i]
    case AtChunk(b, k) =>
      if k == geo.Chunks() {
        GrainCopied(geo, snap, dirty, n.target, b);
      }
      hide DoneBelow, ChunksDone;
    case Holding(b, k, got) =>
      RightChunk(geo, snap, dirty, n, b, k);
      hide DoneBelow, ChunksDone, Write;
    case _ =>
      hide ChunksDone, Write;
  }

  /** A lone thread that starts where everything below is done loses nothing. */
  lemma {:induction false} LoneIsSafe(geo: Geometry, snap: seq<Sector>, dirty: set<nat>, n: Net, i: nat,
                                      schedule: seq<nat>)
    requires Lone(geo, snap, dirty, n, i)
    ensures Lone(geo, snap, dirty, Moves(geo, snap, dirty, n, schedule), i)
    ensures EndsWell(geo, snap, dirty, n, schedule)
  {
    hide Move, LoneStage;
    if schedule == [] {
      NoneYet(geo, snap, dirty, n);
    } else {
      var front, j := schedule[..|schedule| - 1], schedule[|schedule| - 1];
      LoneIsSafe(geo, snap, dirty, n, i, front);
      var m := Moves(geo, snap, dirty, n, front);
      if j == i {
        LoneMove(geo, snap, dirty, m, i);
      } else {
        NothingMoves(geo, snap, dirty, m, j);
      }
    }
  }

  lemma NothingMoves(geo: Geometry, snap: seq<Sector>, dirty: set<nat>, n: Net, j: nat)
    requires Sized(geo, snap, n) && (j < |n.stages| ==> n.stages[j] == Gone)
    ensures Move(geo, snap, dirty, n, j) == n
  {
  }

  // ---------------------------------------------------------------- where threads can write

  /** The thread is at or above bit `from`, and within a dirty grain if it is in one. */
  ghost predicate Within(geo: Geometry, dirty: set<nat>, from: nat, s: Stage)
    requires geo.grain > 0
  {
    match s
    case Starting(b) => b >= from
    case AtHead(b) => b >= from
    case AtChunk(b, k) => b >= from && b in dirty
    case Asking(b, k) => b >= from && b in dirty && k < geo.Chunks()
    case Waiting(b, k) => b >= from && b in dirty && k < geo.Chunks()
    case Holding(b, k, _) => b >= from && b in dirty && k < geo.Chunks()
    case Breaking(b, k) => b >= from && b in dirty && k < geo.Chunks()
    case _ => true
  }

  ghost predicate AllWithin(geo: Geometry, dirty: set<nat>, from: nat, n: Net)
    requires geo.grain > 0
  {
    forall j :: 0 <= j < |n.stages| ==> Within(geo, dirty, from, n.stages[j])
  }

  lemma StaysWithin(geo: Geometry, snap: seq<Sector>, dirty: set<nat>, from: nat, n: Net, i: nat)
    requires Sized(geo, snap, n) && AllWithin(geo, dirty, from, n)
    ensures AllWithin(geo, dirty, from, Move(geo, snap, dirty, n, i))
  {
    if i < |n.stages| {
      OwnWithin(geo, snap, dirty, from, n, i);
      OthersStay(geo, snap, dirty, n, i);
      hide Move;
    }
  }

  lemma OwnWithin(geo: Geometry, snap: seq<Sector>, dirty: set<nat>, from: nat, n: Net, i: nat)
    requires Sized(geo, snap, n) && i < |n.stages| && Within(geo, dirty, from, n.stages[i])
    ensures Within(geo, dirty, from, Move(geo, snap, dirty, n, i).stages[i])
  {
    hide Write, Cancel;
  }

  // ---------------------------------------------------------------- no sector to transfer

  lemma SectorlessWrite(geo: Geometry, snap: seq<Sector>, dirty: set<nat>, from: nat, target: seq<Sector>,
                        b: nat, k: nat, got: Chunk)
    requires geo.Valid() && |target| == |snap| == geo.cap && !SectorFrom(geo, dirty, from)
    requires b >= from && b in dirty && k < geo.Chunks()
    ensures Write(geo, snap, target, Chunk(b, k), got) == target
  {
    forall x: nat | x < geo.cap
      ensures Write(geo, snap, target, Chunk(b, k), got)[x] == target[x]
    {
      ChunksPartition(geo, x, b, k);
    }
  }

  /** Threads with no sector to transfer change nothing. */
  lemma {:induction false} SectorlessIsSafe(geo: Geometry, snap: seq<Sector>, dirty: set<nat>, from: nat, n: Net,
                                            schedule: seq<nat>)
    requires Sized(geo, snap, n) && AllWithin(geo, dirty, from, n) && !SectorFrom(geo, dirty, from)
    requires DoneBelow(geo, snap, dirty, n.target, from)
    ensures var m := Moves(geo, snap, dirty, n, schedule); m.target == n.target && AllWithin(geo, dirty, from, m)
    ensures EndsWell(geo, snap, dirty, n, schedule)
  {
    hide Move, Within;
    if schedule == [] {
      NoneYet(geo, snap, dirty, n);
    } else {
      var front, i := schedule[..|schedule| - 1], schedule[|schedule| - 1];
      SectorlessIsSafe(geo, snap, dirty, from, n, front);
      var m := Moves(geo, snap, dirty, n, front);
      StaysWithin(geo, snap, dirty, from, m, i);
      SectorlessMove(geo, snap, dirty, from, m, i);
    }
  }

  lemma SectorlessMove(geo: Geometry, snap: seq<Sector>, dirty: set<nat>, from: nat, n: Net, i: nat)
    requires Sized(geo, snap, n) && AllWithin(geo, dirty, from, n) && !SectorFrom(geo, dirty, from)
    ensures Move(geo, snap, dirty, n, i).target == n.target
  {
    if i < |n.stages| && n.stages[i].Holding? {
      SectorlessWrite(geo, snap, dirty, from, n.target, n.stages[i].bit, n.stages[i].k, n.stages[i].got);
    }
    hide Write, SectorFrom;
  }

  // ---------------------------------------------------------------- one chunk to transfer

  /** The thread has not yet asked for the chunk of grain g. */
  ghost predicate Before(g: nat, s: Stage) {
    match s
    case Gone => true
    case Starting(b) => b <= g
    case AtHead(b) => b <= g
    case AtChunk(b, k) => b == g && k == 0
    case _ => false
  }

  /** A thread with the single chunk (g, 0) to transfer; `right` says that its sectors are the snapshot's. */
  ghost predicate SingleStage(g: nat, s: Stage, right: bool) {
    match s
    case Gone => true
    case Starting(b) => b <= g || right
    case AtHead(b) => b <= g || right
    case AtChunk(b, k) => b == g && k <= 1 && (k == 0 || right)
    case Asking(b, k) => b == g && k == 0
    case Waiting(b, k) => b == g && k == 0
    case Holding(b, k, got) => b == g && k == 0 && got == Chunk(g, 0)
    case _ => right
  }

  ghost predicate Right(geo: Geometry, snap: seq<Sector>, target: seq<Sector>, g: nat)
    requires geo.grain > 0 && |target| == |snap|
  {
    forall x: nat :: x < |target| && geo.GrainOf(x) == g ==> target[x] == snap[x]
  }

  /** All threads have at most that chunk to transfer, and the header names it as soon as one has asked. */
  ghost predicate Single(geo: Geometry, snap: seq<Sector>, dirty: set<nat>, from: nat, g: nat, n: Net) {
    && Sized(geo, snap, n) && geo.Chunks() == 1 && !n.paused
    && g in dirty && g >= from && g < geo.bits
    && (forall h :: h in dirty && h >= from ==> h == g)
    && AllWithin(geo, dirty, from, n)
    && (forall j :: 0 <= j < |n.stages| ==> SingleStage(g, n.stages[j], Right(geo, snap, n.target, g)))
    && (n.header.chunk == Chunk(g, 0) || forall j :: 0 <= j < |n.stages| ==> Before(g, n.stages[j]))
    && (forall j :: 0 <= j < |n.replies| ==> n.replies[j] == Chunk(g, 0))
    && (n.told || n.header.op == TERMINATION ==> Right(geo, snap, n.target, g))
  }

  lemma SingleWrite(geo: Geometry, snap: seq<Sector>, target: seq<Sector>, g: nat)
    requires geo.Valid() && geo.Chunks() == 1 && |target| == |snap| == geo.cap
    ensures var t := Write(geo, snap, target, Chunk(g, 0), Chunk(g, 0));
            && Right(geo, snap, t, g)
            && forall x: nat :: x < geo.cap && geo.GrainOf(x) != g ==> t[x] == target[x]
  {
    RightWrite(geo, snap, target, Chunk(g, 0));
    forall x: nat | x < geo.cap
      ensures InChunk(geo, x, Chunk(g, 0)) <==> geo.GrainOf(x) == g
    {
      ChunksPartition(geo, x, g, 0);
    }
  }

  lemma SingleTarget(geo: Geometry, snap: seq<Sector>, dirty: set<nat>, from: nat, g: nat, n: Net, i: nat)
    requires Single(geo, snap, dirty, from, g, n)
    ensures var m := Move(geo, snap, dirty, n, i);
            && (Right(geo, snap, n.target, g) ==> Right(geo, snap, m.target, g))
            && (i < |n.stages| && n.stages[i].Holding? ==> Right(geo, snap, m.target, g))
            && forall x: nat :: x < geo.cap && geo.GrainOf(x) != g ==> m.target[x] == n.target[x]
  {
    SingleWrite(geo, snap, n.target, g);
    TargetMove(geo, snap, dirty, n, i);
    if i < |n.stages| && n.stages[i].Holding? {
      assert SingleStage(g, n.stages[i], Right(geo, snap, n.target, g));
    }
    hide Write, Right, AllWithin, Move;
  }

  /** Only a thread that holds a buffer changes the target. */
  lemma TargetMove(geo: Geometry, snap: seq<Sector>, dirty: set<nat>, n: Net, i: nat)
    requires Sized(geo, snap, n)
    ensures Move(geo, snap, dirty, n, i).target ==
              if i < |n.stages| && n.stages[i].Holding? then
                Write(geo, snap, n.target, Chunk(n.stages[i].bit, n.stages[i].k), n.stages[i].got)
              else n.target
  {
    hide Write;
  }

  /** What is known of the moving thread. */
  ghost predicate SingleAt(geo: Geometry, dirty: set<nat>, from: nat, g: nat, n: Net, i: nat, right: bool)
    requires geo.Valid()
  {
    && geo.Chunks() == 1 && i < |n.stages| && g < geo.bits && !n.paused
    && g in dirty && (forall h :: h in dirty && h >= from ==> h == g)
    && Within(geo, dirty, from, n.stages[i]) && SingleStage(g, n.stages[i], right)
    && (n.header.chunk == Chunk(g, 0) || Before(g, n.stages[i]))
    && (forall j :: 0 <= j < |n.replies| ==> n.replies[j] == Chunk(g, 0))
    && (n.told || n.header.op == TERMINATION ==> right)
  }

  lemma SingleOwnStage(geo: Geometry, snap: seq<Sector>, dirty: set<nat>, from: nat, g: nat, n: Net, i: nat, right: bool)
    requires Sized(geo, snap, n) && SingleAt(geo, dirty, from, g, n, i, right)
    requires n.stages[i].Holding? ==> right
    ensures SingleStage(g, Move(geo, snap, dirty, n, i).stages[i], right)
  {
    hide Write, Sized;
  }

  lemma SingleOwnHeader(geo: Geometry, snap: seq<Sector>, dirty: set<nat>, from: nat, g: nat, n: Net, i: nat, right: bool)
    requires Sized(geo, snap, n) && SingleAt(geo, dirty, from, g, n, i, right)
    requires n.stages[i].Holding? ==> right
    ensures var m := Move(geo, snap, dirty, n, i);
            && (m.header.chunk == Chunk(g, 0) || (m.header.chunk == n.header.chunk && Before(g, m.stages[i])))
            && (m.header.op == TERMINATION ==> right)
  {
    hide Write, Sized;
  }

  lemma SingleOwnReplies(geo: Geometry, snap: seq<Sector>, dirty: set<nat>, from: nat, g: nat, n: Net, i: nat, right: bool)
    requires Sized(geo, snap, n) && SingleAt(geo, dirty, from, g, n, i, right)
    requires n.stages[i].Holding? ==> right
    ensures var m := Move(geo, snap, dirty, n, i);
            && (forall j :: 0 <= j < |m.replies| ==> m.replies[j] == Chunk(g, 0))
            && (m.told ==> right)
  {
    hide Write, Sized;
  }

  /** The moving thread's own place, and the wire. */
  lemma SingleOwn(geo: Geometry, snap: seq<Sector>, dirty: set<nat>, from: nat, g: nat, n: Net, i: nat, right: bool)
    requires Sized(geo, snap, n) && SingleAt(geo, dirty, from, g, n, i, right)
    requires n.stages[i].Holding? ==> right
    ensures var m := Move(geo, snap, dirty, n, i);
            && SingleStage(g, m.stages[i], right)
            && (m.header.chunk == Chunk(g, 0) || (m.header.chunk == n.header.chunk && Before(g, m.stages[i])))
            && (forall j :: 0 <= j < |m.replies| ==> m.replies[j] == Chunk(g, 0))
            && (m.told || m.header.op == TERMINATION ==> right)
  {
    hide Move;
    SingleOwnStage(geo, snap, dirty, from, g, n, i, right);
    SingleOwnHeader(geo, snap, dirty, from, g, n, i, right);
    SingleOwnReplies(geo, snap, dirty, from, g, n, i, right);
  }

  lemma SingleGives(geo: Geometry, snap: seq<Sector>, dirty: set<nat>, from: nat, g: nat, n: Net, i: nat, right: bool)
    requires Single(geo, snap, dirty, from, g, n) && i < |n.stages|
    requires Right(geo, snap, n.target, g) ==> right
    ensures SingleAt(geo, dirty, from, g, n, i, right)
  {
    hide Right, Within;
  }

  lemma SingleMove(geo: Geometry, snap: seq<Sector>, dirty: set<nat>, from: nat, g: nat, n: Net, i: nat)
    requires Single(geo, snap, dirty, from, g, n)
    ensures var m := Move(geo, snap, dirty, n, i);
            && Single(geo, snap, dirty, from, g, m)
            && forall x: nat :: x < geo.cap && geo.GrainOf(x) != g ==> m.target[x] == n.target[x]
  {
    StaysWithin(geo, snap, dirty, from, n, i);
    SingleTarget(geo, snap, dirty, from, g, n, i);
    var m := Move(geo, snap, dirty, n, i);
    if i >= |n.stages| {
      assert m == n;
    } else {
      SingleGives(geo, snap, dirty, from, g, n, i, Right(geo, snap, m.target, g));
      SingleOwn(geo, snap, dirty, from, g, n, i, Right(geo, snap, m.target, g));
      OthersStay(geo, snap, dirty, n, i);
      hide Move, Write, Right, AllWithin;
      forall j | 0 <= j < |n.stages|
        ensures SingleStage(g, m.stages[j], Right(geo, snap, m.target, g))
        ensures m.header.chunk == Chunk(g, 0) || Before(g, m.stages[j])
      {
      }
    }
  }

  /** Any number of threads with one and the same chunk to transfer lose nothing. */
  lemma {:induction false} SingleIsSafe(geo: Geometry, snap: seq<Sector>, dirty: set<nat>, from: nat, g: nat, n: Net,
                                        schedule: seq<nat>)
    requires Single(geo, snap, dirty, from, g, n) && DoneBelow(geo, snap, dirty, n.target, from)
    ensures var m := Moves(geo, snap, dirty, n, schedule);
            && Single(geo, snap, dirty, from, g, m)
            && forall x: nat :: x < geo.cap && geo.GrainOf(x) != g ==> m.target[x] == n.target[x]
    ensures EndsWell(geo, snap, dirty, n, schedule)
  {
    hide Move, Single;
    SingleSized(geo, snap, dirty, from, g, n);
    if schedule == [] {
      NoneYet(geo, snap, dirty, n);
    } else {
      var front, i := schedule[..|schedule| - 1], schedule[|schedule| - 1];
      SingleIsSafe(geo, snap, dirty, from, g, n, front);
      SingleMove(geo, snap, dirty, from, g, Moves(geo, snap, dirty, n, front), i);
    }
    var m := Moves(geo, snap, dirty, n, schedule);
    SingleTold(geo, snap, dirty, from, g, m);
  }

  lemma SingleSized(geo: Geometry, snap: seq<Sector>, dirty: set<nat>, from: nat, g: nat, n: Net)
    requires Single(geo, snap, dirty, from, g, n)
    ensures Sized(geo, snap, n)
  {
  }

  lemma SingleTold(geo: Geometry, snap: seq<Sector>, dirty: set<nat>, from: nat, g: nat, n: Net)
    requires Single(geo, snap, dirty, from, g, n)
    ensures n.told ==> Right(geo, snap, n.target, g)
    ensures forall h :: h in dirty && h >= from ==> h == g
  {
  }

  // ---------------------------------------------------------------- after the termination

  /** A server that has been told answers no more. */
  lemma {:induction false} ToldAnswersNone(geo: Geometry, snap: seq<Sector>, dirty: set<nat>, n: Net, schedule: seq<nat>)
    requires Sized(geo, snap, n) && n.told
    ensures var m := Moves(geo, snap, dirty, n, schedule); m.told && |m.replies| <= |n.replies|
  {
    if schedule != [] {
      var front, i := schedule[..|schedule| - 1], schedule[|schedule| - 1];
      ToldAnswersNone(geo, snap, dirty, n, front);
      ToldMove(geo, snap, dirty, Moves(geo, snap, dirty, n, front), i);
    }
    hide Move;
  }

  lemma ToldMove(geo: Geometry, snap: seq<Sector>, dirty: set<nat>, n: Net, i: nat)
    requires Sized(geo, snap, n) && n.told
    ensures var m := Move(geo, snap, dirty, n, i); m.told && |m.replies| <= |n.replies|
  {
    hide Write;
  }

  /** Nobody is about to send a termination. */
  ghost predicate NoneClosing(n: Net) {
    forall j :: 0 <= j < |n.stages| ==> n.stages[j] != Closing
  }

  lemma DoneMove(geo: Geometry, snap: seq<Sector>, dirty: set<nat>, n: Net, i: nat)
    requires Sized(geo, snap, n) && n.done && NoneClosing(n)
    ensures var m := Move(geo, snap, dirty, n, i);
            m.done && NoneClosing(m) && m.told == n.told && |m.replies| <= |n.replies|
  {
    OthersStay(geo, snap, dirty, n, i);
    hide Write, Send;
  }

  /** When the round is done, and no thread is about to terminate it again, nothing is sent any more. */
  lemma {:induction false} DoneSendsNothing(geo: Geometry, snap: seq<Sector>, dirty: set<nat>, n: Net, schedule: seq<nat>)
    requires Sized(geo, snap, n) && n.done && NoneClosing(n)
    ensures var m := Moves(geo, snap, dirty, n, schedule);
            m.done && NoneClosing(m) && m.told == n.told && |m.replies| <= |n.replies|
  {
    hide Move, NoneClosing;
    if schedule != [] {
      var front, i := schedule[..|schedule| - 1], schedule[|schedule| - 1];
      DoneSendsNothing(geo, snap, dirty, n, front);
      DoneMove(geo, snap, dirty, Moves(geo, snap, dirty, n, front), i);
    }
  }

  /** The round is done, or a thread that is to say so is there. */
  ghost predicate TellsOfEnd(n: Net) {
    && !n.paused && (forall j :: 0 <= j < |n.stages| ==> n.stages[j] != Cancelling)
    && (n.told || n.header.op == TERMINATION ==>
          n.done || exists j :: 0 <= j < |n.stages| && n.stages[j] in {Closing, Closed})
  }

  lemma EndMove(geo: Geometry, snap: seq<Sector>, dirty: set<nat>, n: Net, i: nat)
    requires Sized(geo, snap, n) && TellsOfEnd(n)
    ensures TellsOfEnd(Move(geo, snap, dirty, n, i))
  {
    var m := Move(geo, snap, dirty, n, i);
    OthersStay(geo, snap, dirty, n, i);
    if i < |n.stages| && (m.told || m.header.op == TERMINATION) && !m.done {
      if n.told || n.header.op == TERMINATION {
        var j :| 0 <= j < |n.stages| && n.stages[j] in {Closing, Closed};
        assert m.stages[j] in {Closing, Closed};
      } else {
        assert m.stages[i] == Closing;
      }
    }
    hide Write;
  }

  /** Threads that have told the server see to it that the round is done: when all are gone it is. */
  lemma {:induction false} ToldIsDone(geo: Geometry, snap: seq<Sector>, dirty: set<nat>, n: Net, schedule: seq<nat>)
    requires Sized(geo, snap, n) && TellsOfEnd(n)
    ensures TellsOfEnd(Moves(geo, snap, dirty, n, schedule))
  {
    hide Move, TellsOfEnd;
    if schedule != [] {
      var front, i := schedule[..|schedule| - 1], schedule[|schedule| - 1];
      ToldIsDone(geo, snap, dirty, n, front);
      EndMove(geo, snap, dirty, Moves(geo, snap, dirty, n, front), i);
    }
  }
}
