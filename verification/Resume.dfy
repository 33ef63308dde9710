/** Interruptions do not change what a round copies. */
module Resume {
  import opened Geometry
  import opened ResyncSteps

  // ---------------------------------------------------------------- the invariant, step by step

  /** Copying a chunk only moves target sectors to their snapshot contents. */
  lemma ChunkKeepsDone(geo: Geometry, snap: seq<Sector>, dirty: set<nat>, c: Client, b: nat, k: nat)
    requires Fits(geo, snap, c) && k < geo.Chunks()
    requires DoneBelow(geo, snap, dirty, c.target, b) && ChunksDone(geo, snap, c.target, b, k)
    ensures var t := Copied(c.target, snap, geo.Lba(b, k), geo.Lba(b, k) + BUFFER);
            DoneBelow(geo, snap, dirty, t, b) && ChunksDone(geo, snap, t, b, k + 1)
  {
    var t := Copied(c.target, snap, geo.Lba(b, k), geo.Lba(b, k) + BUFFER);
    forall s: nat | s < |t| && geo.GrainOf(s) == b && ChunkOf(geo, s) < k + 1
      ensures t[s] == snap[s]
    {
      ChunksPartition(geo, s, b, k);
    }
  }

  /** All chunks of a grain make the grain. */
  lemma GrainCopied(geo: Geometry, snap: seq<Sector>, dirty: set<nat>, target: seq<Sector>, b: nat)
    requires geo.Valid() && |snap| == |target|
    requires DoneBelow(geo, snap, dirty, target, b) && ChunksDone(geo, snap, target, b, geo.Chunks())
    ensures DoneBelow(geo, snap, dirty, target, b + 1)
  {
    forall s: nat | s < |target| && geo.GrainOf(s) in dirty && geo.GrainOf(s) < b + 1
      ensures target[s] == snap[s]
    {
      ChunksPartition(geo, s, b, 0);
    }
  }

  lemma TickKeepsRound(geo: Geometry, snap: seq<Sector>, dirty: set<nat>, c: Client)
    requires Open(geo, snap, dirty, c) && c.thread != NotRunning
    ensures Round(geo, snap, dirty, TickStep(geo, snap, c))
  {
    match c.thread
    case Head(b) =>
    case OutOfLoop =>
      hide DoneBelow;
    case Ending =>
      hide DoneBelow;
    case InGrain(b, k) =>
      hide SetStates, MovePosition;
      if k < geo.Chunks() && !c.paused {
        ChunkKeepsDone(geo, snap, dirty, c, b, k);
        hide Copied, DoneBelow, ChunksDone;
      } else if !c.paused {
        GrainCopied(geo, snap, dirty, c.target, b);
      }
  }

  /** Every step the client can take keeps a round open in good order, or closes it. */
  lemma {:induction false} StepKeepsRound(geo: Geometry, snap: seq<Sector>, dirty: set<nat>, c: Client, a: Action)
    requires Round(geo, snap, dirty, c) && Enabled(geo, c, a)
    ensures Round(geo, snap, dirty, Step(geo, snap, c, a))
  {
    if Open(geo, snap, dirty, c) {
      if a == Tick {
        TickKeepsRound(geo, snap, dirty, c);
      }
    }
  }

  lemma OpenIsRound(geo: Geometry, snap: seq<Sector>, dirty: set<nat>, c: Client)
    requires Open(geo, snap, dirty, c)
    ensures Fits(geo, snap, c) && Round(geo, snap, dirty, c)
  {
  }

  lemma BegunIsOpen(geo: Geometry, snap: seq<Sector>, dirty: set<nat>, c: Client)
    requires Round(geo, snap, dirty, c) && c.begun
    ensures Open(geo, snap, dirty, c)
  {
  }

  /** No step opens a finished round again. */
  lemma BegunBefore(geo: Geometry, snap: seq<Sector>, dirty: set<nat>, c: Client, a: Action)
    requires Round(geo, snap, dirty, c) && Enabled(geo, c, a) && Step(geo, snap, c, a).begun
    ensures Open(geo, snap, dirty, c)
  {
  }

  lemma BeginOpens(geo: Geometry, snap: seq<Sector>, c: Client, mode: Mode)
    requires Fits(geo, snap, c) && Ready(geo, c)
    ensures Fits(geo, snap, Begin(c, mode))
    ensures Open(geo, snap, c.bitmap, Begin(c, mode))
  {
  }

  lemma {:induction false} RunKeepsRound(geo: Geometry, snap: seq<Sector>, dirty: set<nat>, c: Client, actions: seq<Action>)
    requires Round(geo, snap, dirty, c) && Possible(geo, snap, c, actions)
    ensures Round(geo, snap, dirty, After(geo, snap, c, actions))
  {
    if actions != [] {
      var front, a := actions[..|actions| - 1], actions[|actions| - 1];
      RunKeepsRound(geo, snap, dirty, c, front);
      StepKeepsRound(geo, snap, dirty, After(geo, snap, c, front), a);
    }
  }

  // ---------------------------------------------------------------- what a round leaves in the target

  /** The target a round is for: dirty grains from the snapshot, the rest as it was. */
  function Merged(geo: Geometry, dirty: set<nat>, before: seq<Sector>, snap: seq<Sector>): (r: seq<Sector>)
    requires geo.grain > 0 && |before| == |snap|
    ensures |r| == |before|
    ensures forall s: nat :: s < |r| ==> r[s] == if geo.GrainOf(s) in dirty then snap[s] else before[s]
  {
    seq(|before|, s requires 0 <= s < |before| => if geo.GrainOf(s) in dirty then snap[s] else before[s])
  }

  /** In normal mode only dirty grains are written. */
  ghost predicate CleanUntouched(geo: Geometry, dirty: set<nat>, before: seq<Sector>, c: Client) {
    && geo.grain > 0
    && c.mode == NO_RESYNC
    && |before| == |c.target|
    && forall s: nat :: s < |before| && geo.GrainOf(s) !in dirty ==> c.target[s] == before[s]
  }

  lemma {:induction false} StepLeavesClean(geo: Geometry, snap: seq<Sector>, dirty: set<nat>, before: seq<Sector>,
                                           c: Client, a: Action)
    requires Round(geo, snap, dirty, c) && Enabled(geo, c, a)
    requires CleanUntouched(geo, dirty, before, c)
    ensures CleanUntouched(geo, dirty, before, Step(geo, snap, c, a))
  {
    if a == Tick && c.thread.InGrain? && c.thread.chunk < geo.Chunks() {
      var b, k := c.thread.bit, c.thread.chunk;
      forall s: nat | s < |before| && geo.GrainOf(s) !in dirty
        ensures Step(geo, snap, c, a).target[s] == before[s]
      {
        ChunksPartition(geo, s, b, k);
      }
    }
  }

  lemma {:induction false} RunLeavesClean(geo: Geometry, snap: seq<Sector>, dirty: set<nat>, before: seq<Sector>,
                                          c: Client, actions: seq<Action>)
    requires Round(geo, snap, dirty, c) && Possible(geo, snap, c, actions)
    requires CleanUntouched(geo, dirty, before, c)
    ensures CleanUntouched(geo, dirty, before, After(geo, snap, c, actions))
  {
    if actions != [] {
      var front, a := actions[..|actions| - 1], actions[|actions| - 1];
      RunLeavesClean(geo, snap, dirty, before, c, front);
      RunKeepsRound(geo, snap, dirty, c, front);
      StepLeavesClean(geo, snap, dirty, before, After(geo, snap, c, front), a);
    }
  }

  /** However often a round is paused, cut off, failed or restarted, once it completes the target is
      the one its bitmap and snapshot determine; so all completed runs of a round, the uninterrupted
      one among them, agree. */
  lemma {:induction false} ResumeIsTransparent(geo: Geometry, snap: seq<Sector>, c: Client, actions: seq<Action>)
    requires Fits(geo, snap, c) && Ready(geo, c)
    requires Possible(geo, snap, Begin(c, NO_RESYNC), actions)
    requires After(geo, snap, Begin(c, NO_RESYNC), actions).rep == Completed
    ensures After(geo, snap, Begin(c, NO_RESYNC), actions).target == Merged(geo, c.bitmap, c.target, snap)
  {
    BeginOpens(geo, snap, c, NO_RESYNC);
    var d := Begin(c, NO_RESYNC);
    var end := After(geo, snap, d, actions);
    RunKeepsRound(geo, snap, c.bitmap, d, actions);
    RunLeavesClean(geo, snap, c.bitmap, c.target, d, actions);
    forall s: nat | s < geo.cap
      ensures end.target[s] == Merged(geo, c.bitmap, c.target, snap)[s]
    {
      GrainInBitmap(geo, s);
    }
  }

  /** At every moment of a round, whatever happened before: each dirty grain below `last_resynced_bit`
      is copied, and so is each below the persisted position. */
  lemma {:induction false} ResumePositionIsSafe(geo: Geometry, snap: seq<Sector>, c: Client, mode: Mode,
                                                actions: seq<Action>, s: nat)
    requires Fits(geo, snap, c) && Ready(geo, c)
    requires Possible(geo, snap, Begin(c, mode), actions)
    requires s < geo.cap && geo.GrainOf(s) in c.bitmap
    ensures var d := After(geo, snap, Begin(c, mode), actions);
            geo.GrainOf(s) < d.last || (d.begun && geo.GrainOf(s) < d.persisted) ==> d.target[s] == snap[s]
  {
    BeginOpens(geo, snap, c, mode);
    RunKeepsRound(geo, snap, c.bitmap, Begin(c, mode), actions);
  }

  // ---------------------------------------------------------------- where a thread may start

  /** A thread may start at p: all dirty grains below are copied, and below 2 unless p is 0. */
  ghost predicate MayStartAt(geo: Geometry, snap: seq<Sector>, dirty: set<nat>, target: seq<Sector>, p: nat)
    requires geo.grain > 0 && |snap| == |target|
  {
    p < geo.bits && DoneBelow(geo, snap, dirty, target, p) && (p > 0 ==> DoneBelow(geo, snap, dirty, target, 2))
  }

  lemma StaysDone(geo: Geometry, snap: seq<Sector>, dirty: set<nat>, c: Client, a: Action, p: nat)
    requires Fits(geo, snap, c) && DoneBelow(geo, snap, dirty, c.target, p)
    ensures DoneBelow(geo, snap, dirty, Step(geo, snap, c, a).target, p)
  {
    forall x: nat | x < geo.cap
      ensures Step(geo, snap, c, a).target[x] == c.target[x] || Step(geo, snap, c, a).target[x] == snap[x]
    {
    }
  }

  lemma StillMayStart(geo: Geometry, snap: seq<Sector>, dirty: set<nat>, c: Client, a: Action)
    requires Fits(geo, snap, c)
    ensures forall p: nat :: MayStartAt(geo, snap, dirty, c.target, p) ==>
      MayStartAt(geo, snap, dirty, Step(geo, snap, c, a).target, p)
  {
    forall p: nat | MayStartAt(geo, snap, dirty, c.target, p)
      ensures MayStartAt(geo, snap, dirty, Step(geo, snap, c, a).target, p)
    {
      StaysDone(geo, snap, dirty, c, a, p);
      if p > 0 {
        StaysDone(geo, snap, dirty, c, a, 2);
      }
    }
  }

  /** Leaving a grain, complete or because of a pause, the thread may start there again. */
  lemma GrainLeft(geo: Geometry, snap: seq<Sector>, dirty: set<nat>, c: Client)
    requires Open(geo, snap, dirty, c) && MayStartAt(geo, snap, dirty, c.target, c.last)
    requires c.thread.InGrain? && (c.thread.chunk == geo.Chunks() || (c.paused && c.last > 0))
    ensures MayStartAt(geo, snap, dirty, c.target, c.thread.bit)
  {
    if c.thread.chunk == geo.Chunks() {
      GrainCopied(geo, snap, dirty, c.target, c.thread.bit);
    }
  }

  predicate OnlyTicks(actions: seq<Action>) {
    forall i :: 0 <= i < |actions| ==> actions[i] == Tick
  }
}
