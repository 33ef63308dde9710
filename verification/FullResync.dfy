/** Rounds in FULL_RESYNC mode. */
module FullResync {
  import opened Geometry
  import opened ResyncSteps
  import opened Resume
  import opened Progress

  /** While the mode lasts, the thread has copied every grain below where it stands. */
  ghost predicate FullSoFar(geo: Geometry, snap: seq<Sector>, c: Client) {
    var all := geo.AllGrains();
    && Fits(geo, snap, c)
    && (c.rep == Completed ==> c.thread == NotRunning && !c.begun)
    && (c.mode == FULL_RESYNC ==>
          if c.rep == Completed then DoneBelow(geo, snap, all, c.target, geo.bits)
          else
            match c.thread
            case NotRunning => true
            case Head(b) => b <= geo.bits && (c.paused || DoneBelow(geo, snap, all, c.target, b))
            case InGrain(b, k) =>
              && b < geo.bits && k <= geo.Chunks()
              && DoneBelow(geo, snap, all, c.target, b)
              && ChunksDone(geo, snap, c.target, b, k)
            case OutOfLoop => c.paused || DoneBelow(geo, snap, all, c.target, geo.bits)
            case Ending => DoneBelow(geo, snap, all, c.target, geo.bits))
  }

  lemma TickExtendsFull(geo: Geometry, snap: seq<Sector>, c: Client)
    requires FullSoFar(geo, snap, c) && c.thread != NotRunning
    ensures FullSoFar(geo, snap, TickStep(geo, snap, c))
  {
    var all := geo.AllGrains();
    match c.thread
    case Head(b) =>
    case OutOfLoop =>
    case Ending =>
    case InGrain(b, k) =>
      if c.mode == FULL_RESYNC && c.rep != Completed {
        if k < geo.Chunks() && !c.paused {
          ChunkKeepsDone(geo, snap, all, c, b, k);
        } else if !c.paused {
          GrainCopied(geo, snap, all, c.target, b);
        }
      }
  }

  /** The steps that start a new thread, always in normal mode. */
  predicate Restarts(a: Action) {
    a in {AskResume, Recover, Crash}
  }

  lemma StepExtendsFull(geo: Geometry, snap: seq<Sector>, c: Client, a: Action)
    requires FullSoFar(geo, snap, c) && Enabled(geo, c, a)
    ensures FullSoFar(geo, snap, Step(geo, snap, c, a))
    ensures Step(geo, snap, c, a).mode == if Restarts(a) then NO_RESYNC else c.mode
  {
    if a == Tick {
      TickExtendsFull(geo, snap, c);
    }
  }

  lemma {:induction false} RunExtendsFull(geo: Geometry, snap: seq<Sector>, c: Client, actions: seq<Action>)
    requires FullSoFar(geo, snap, c) && Possible(geo, snap, c, actions)
    ensures FullSoFar(geo, snap, After(geo, snap, c, actions))
    ensures (After(geo, snap, c, actions).mode == FULL_RESYNC) <==>
              (c.mode == FULL_RESYNC && forall i :: 0 <= i < |actions| ==> !Restarts(actions[i]))
  {
    hide Step, Restarts, DoneBelow, ChunksDone;
    if actions != [] {
      var front, a := actions[..|actions| - 1], actions[|actions| - 1];
      LastStep(geo, snap, c, actions);
      RunExtendsFull(geo, snap, c, front);
      StepExtendsFull(geo, snap, After(geo, snap, c, front), a);
      assert forall i :: 0 <= i < |front| ==> actions[i] == front[i];
    }
  }

  /** A full resync that runs to its end without a restart makes the target the snapshot, whatever the
      target and the bitmap were. */
  lemma {:induction false} FullResyncCopiesAll(geo: Geometry, snap: seq<Sector>, c: Client, actions: seq<Action>)
    requires Fits(geo, snap, c) && Ready(geo, c)
    requires Possible(geo, snap, Begin(c, FULL_RESYNC), actions)
    requires forall i :: 0 <= i < |actions| ==> !Restarts(actions[i])
    requires After(geo, snap, Begin(c, FULL_RESYNC), actions).rep == Completed
    ensures After(geo, snap, Begin(c, FULL_RESYNC), actions).target == snap
  {
    RunExtendsFull(geo, snap, Begin(c, FULL_RESYNC), actions);
    var t := After(geo, snap, Begin(c, FULL_RESYNC), actions).target;
    forall s: nat | s < geo.cap
      ensures t[s] == snap[s]
    {
      GrainInBitmap(geo, s);
    }
  }

  // ---------------------------------------------------------------- full resync and restarts

  /** A full resync of a client with bitmap `dirty`: if it completes, restarted or not, the target is the
      snapshot. */
  ghost predicate FullEndsWell(geo: Geometry, snap: seq<Sector>, c: Client, dirty: set<nat>, actions: seq<Action>) {
    Fits(geo, snap, c) && Ready(geo, c) && c.bitmap == dirty ==>
      var b := Begin(c, FULL_RESYNC);
      Possible(geo, snap, b, actions) && After(geo, snap, b, actions).rep == Completed ==>
        After(geo, snap, b, actions).target == snap
  }

  ghost predicate FullSurvivesRestarts(geo: Geometry, dirty: set<nat>) {
    forall snap, c, actions :: FullEndsWell(geo, snap, c, dirty, actions)
  }

  function Stale(geo: Geometry, dirty: set<nat>): Client {
    Client(NotRunning, NO_RESYNC, false, Up, Completed, false, true, dirty, dirty, 0, 0, [], Chunk(0, 0), seq(geo.cap, i => 0), 0)
  }

  /** The link fails before the first chunk; recovery goes on in normal mode and never copies a clean
      grain. */
  lemma LosesWhenRestarted(geo: Geometry, dirty: set<nat>, s: nat) returns (actions: seq<Action>)
    requires geo.Valid() && (forall g :: g in dirty ==> g < geo.bits)
    requires s < geo.cap && geo.GrainOf(s) !in dirty
    ensures !FullEndsWell(geo, seq(geo.cap, i => 1), Stale(geo, dirty), dirty, actions)
  {
    var snap: seq<Sector> := seq(geo.cap, i => 1);
    var c := Stale(geo, dirty);
    var b := Begin(c, FULL_RESYNC);
    BeginOpens(geo, snap, c, FULL_RESYNC);
    EmptyRun(geo, snap, b);
    hide After, Possible;
    var d := Extend(geo, snap, b, [], Tick);
    d := Extend(geo, snap, b, [] + [Tick], LinkFails);
    d := Extend(geo, snap, b, [] + [Tick] + [LinkFails], Recover);
    var first := [] + [Tick] + [LinkFails] + [Recover];
    RunKeepsRound(geo, snap, dirty, b, first);
    assert CleanUntouched(geo, dirty, c.target, d);
    var second := RoundCompletes(geo, snap, dirty, d);
    RunLeavesClean(geo, snap, dirty, c.target, d, second);
    Concat(geo, snap, b, first, second);
    actions := first + second;
  }

  /** A restart drops the mode, so whatever interrupts a full resync it still copies the device exactly
      when its bitmap marks every grain that holds a sector. */
  lemma {:induction false} FullSurvivesRestartsIff(geo: Geometry, dirty: set<nat>)
    requires geo.Valid() && forall g :: g in dirty ==> g < geo.bits
    ensures FullSurvivesRestarts(geo, dirty) <==> forall s: nat :: s < geo.cap ==> geo.GrainOf(s) in dirty
  {
    if s: nat :| s < geo.cap && geo.GrainOf(s) !in dirty {
      var actions := LosesWhenRestarted(geo, dirty, s);
    } else {
      forall snap, c, actions
        ensures FullEndsWell(geo, snap, c, dirty, actions)
      {
        if Fits(geo, snap, c) && Ready(geo, c) && c.bitmap == dirty
           && Possible(geo, snap, Begin(c, FULL_RESYNC), actions) {
          BeginOpens(geo, snap, c, FULL_RESYNC);
          RunKeepsRound(geo, snap, dirty, Begin(c, FULL_RESYNC), actions);
        }
      }
    }
  }
}
