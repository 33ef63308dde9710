/** What an uninterrupted resync writes: every sector of a dirty grain once, no other sector ever. */
module Coverage {
  import opened Geometry
  import opened ResyncSteps
  import opened Resume

  /** The step transfers a chunk. */
  predicate CopiesChunk(geo: Geometry, c: Client, a: Action)
    requires geo.grain > 0
  {
    a == Tick && !c.paused && c.thread.InGrain? && c.thread.chunk < geo.Chunks()
  }

  /** It writes sector x. */
  predicate Writes(geo: Geometry, c: Client, a: Action, x: nat)
    requires geo.grain > 0
  {
    && CopiesChunk(geo, c, a)
    && geo.Lba(c.thread.bit, c.thread.chunk) <= x < geo.Lba(c.thread.bit, c.thread.chunk) + BUFFER
  }

  /** How often the run writes it. */
  function CountWrites(geo: Geometry, snap: seq<Sector>, c: Client, actions: seq<Action>, x: nat): nat
    requires Fits(geo, snap, c)
  {
    if actions == [] then 0
    else
      var front := actions[..|actions| - 1];
      CountWrites(geo, snap, c, front, x)
      + (if Writes(geo, After(geo, snap, c, front), actions[|actions| - 1], x) then 1 else 0)
  }

  /** How many chunks the run transfers. */
  function CountChunks(geo: Geometry, snap: seq<Sector>, c: Client, actions: seq<Action>): nat
    requires Fits(geo, snap, c)
  {
    if actions == [] then 0
    else
      var front := actions[..|actions| - 1];
      CountChunks(geo, snap, c, front)
      + (if CopiesChunk(geo, After(geo, snap, c, front), actions[|actions| - 1]) then 1 else 0)
  }

  lemma StepCounts(geo: Geometry, snap: seq<Sector>, c: Client, a: Action)
    requires Fits(geo, snap, c) && Enabled(geo, c, a)
    ensures Step(geo, snap, c, a).written == c.written + (if CopiesChunk(geo, c, a) then 1 else 0)
  {
  }

  /** The client's count of the chunks written is that of the transfers of its run. */
  lemma {:induction false} WrittenIsTransferred(geo: Geometry, snap: seq<Sector>, c: Client, actions: seq<Action>)
    requires Fits(geo, snap, c) && Possible(geo, snap, c, actions)
    ensures After(geo, snap, c, actions).written == c.written + CountChunks(geo, snap, c, actions)
  {
    hide Step, CopiesChunk;
    if actions != [] {
      var front, a := actions[..|actions| - 1], actions[|actions| - 1];
      LastStep(geo, snap, c, actions);
      WrittenIsTransferred(geo, snap, c, front);
      StepCounts(geo, snap, After(geo, snap, c, front), a);
    }
  }

  lemma StepWrites(geo: Geometry, snap: seq<Sector>, c: Client, a: Action, x: nat)
    requires Fits(geo, snap, c) && Enabled(geo, c, a) && x < geo.cap
    ensures Step(geo, snap, c, a).target[x] == if Writes(geo, c, a, x) then snap[x] else c.target[x]
  {
  }

  /** In any run, in either mode and whatever interrupts it, a written sector ends as the snapshot's and
      any other keeps its contents. */
  lemma {:induction false} TargetIsWhatWasWritten(geo: Geometry, snap: seq<Sector>, c: Client, actions: seq<Action>, x: nat)
    requires Fits(geo, snap, c) && Possible(geo, snap, c, actions) && x < geo.cap
    ensures After(geo, snap, c, actions).target[x]
              == if CountWrites(geo, snap, c, actions, x) > 0 then snap[x] else c.target[x]
  {
    hide Step;
    if actions != [] {
      var front, a := actions[..|actions| - 1], actions[|actions| - 1];
      LastStep(geo, snap, c, actions);
      TargetIsWhatWasWritten(geo, snap, c, front, x);
      StepWrites(geo, snap, After(geo, snap, c, front), a, x);
    }
  }

  /** How often x has been written when the thread stands where it does. */
  function WrittenSoFar(geo: Geometry, dirty: set<nat>, t: Thread, x: nat): nat
    requires geo.grain > 0
  {
    var g := geo.GrainOf(x);
    match t
    case NotRunning => if g in dirty then 1 else 0
    case OutOfLoop => if g in dirty then 1 else 0
    case Ending => if g in dirty then 1 else 0
    case Head(b) => if g in dirty && g < b then 1 else 0
    case InGrain(b, k) => if (g in dirty && g < b) || (g == b && ChunkOf(geo, x) < k) then 1 else 0
  }

  ghost predicate Uninterrupted(geo: Geometry, c: Client) {
    && geo.grain > 0
    && c.mode == NO_RESYNC && !c.paused
    && (forall g :: g in c.bitmap ==> g < geo.bits)
    && match c.thread
       case NotRunning => true
       case OutOfLoop => true
       case Ending => true
       case Head(b) => b <= geo.bits
       case InGrain(b, k) => b < geo.bits && b in c.bitmap && k <= geo.Chunks()
  }

  lemma TickCovers(geo: Geometry, snap: seq<Sector>, c: Client, x: nat)
    requires Fits(geo, snap, c) && Uninterrupted(geo, c) && c.thread != NotRunning && x < geo.cap
    ensures var d := Step(geo, snap, c, Tick);
            && Uninterrupted(geo, d) && d.bitmap == c.bitmap
            && WrittenSoFar(geo, c.bitmap, d.thread, x)
                 == WrittenSoFar(geo, c.bitmap, c.thread, x) + (if Writes(geo, c, Tick, x) then 1 else 0)
  {
    if c.thread.InGrain? && c.thread.chunk < geo.Chunks() {
      ChunksPartition(geo, x, c.thread.bit, c.thread.chunk);
    } else {
      ChunksPartition(geo, x, 0, 0);
    }
  }

  lemma {:induction false} TicksCover(geo: Geometry, snap: seq<Sector>, c: Client, actions: seq<Action>, x: nat)
    requires Fits(geo, snap, c) && Possible(geo, snap, c, actions) && OnlyTicks(actions)
    requires Uninterrupted(geo, c) && c.thread == Head(0) && x < geo.cap
    ensures var d := After(geo, snap, c, actions);
            && Uninterrupted(geo, d) && d.bitmap == c.bitmap
            && CountWrites(geo, snap, c, actions, x) == WrittenSoFar(geo, c.bitmap, d.thread, x)
  {
    hide Step;
    if actions != [] {
      var front := actions[..|actions| - 1];
      LastStep(geo, snap, c, actions);
      assert actions[|actions| - 1] == Tick;
      TicksCover(geo, snap, c, front, x);
      TickCovers(geo, snap, After(geo, snap, c, front), x);
    }
  }

  /** An uninterrupted round, once its thread is gone, has written each sector of each dirty grain exactly
      once and no sector of a clean grain. */
  lemma {:induction false} EachDirtySectorOnce(geo: Geometry, snap: seq<Sector>, c: Client, actions: seq<Action>, x: nat)
    requires Fits(geo, snap, c) && Ready(geo, c) && !c.paused && x < geo.cap
    requires Possible(geo, snap, Begin(c, NO_RESYNC), actions) && OnlyTicks(actions)
    requires After(geo, snap, Begin(c, NO_RESYNC), actions).thread == NotRunning
    ensures CountWrites(geo, snap, Begin(c, NO_RESYNC), actions, x) == if geo.GrainOf(x) in c.bitmap then 1 else 0
  {
    TicksCover(geo, snap, Begin(c, NO_RESYNC), actions, x);
  }
}
