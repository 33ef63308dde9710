/** Which rounds can lose something by a resume that does not wait, over all the runs that lead to it. */
module EarlyResume {
  import opened Geometry
  import opened ResyncSteps
  import opened Resume
  import opened Straight
  import opened Wire
  import opened WireLoss
  import opened WireSafety
  import opened Overlap

  /** A round for `dirty` that is resumed at once in whatever paused state a run has brought it to, with the old
      thread anywhere in the step it is in. */
  ghost predicate ResumedWell(geo: Geometry, snap: seq<Sector>, dirty: set<nat>, c: Client, actions: seq<Action>,
                              s: Stage, h: Header, replies: seq<Chunk>) {
    Fits(geo, snap, c) && Ready(geo, c) && !c.paused && c.bitmap == dirty ==>
      var b := Begin(c, NO_RESYNC);
      Possible(geo, snap, b, actions) ==>
        var d := After(geo, snap, b, actions);
        d.begun && d.paused && PlaceInSteps(s) == d.thread && PlaceFits(geo, dirty, d.last, s) && WireLeft(d, s, h, replies) ==>
          AllEndWell(geo, snap, dirty, Resumed(d, s, h, replies))
  }

  ghost predicate ResumesNeedNotWait(geo: Geometry, dirty: set<nat>) {
    forall snap, c, actions, s, h, replies :: ResumedWell(geo, snap, dirty, c, actions, s, h, replies)
  }

  /** Grain g is dirty and holds a sector. */
  ghost predicate Holds(geo: Geometry, dirty: set<nat>, g: nat)
    requires geo.grain > 0
  {
    g in dirty && exists x: nat :: x < geo.cap && geo.GrainOf(x) == g
  }

  /** A pause is ignored while the position is 0, so it cannot come before grain 1 is behind; and a daemon that
      crashes while paused comes back at the position it wrote last, with an empty header. */
  ghost predicate AtRisk(geo: Geometry, dirty: set<nat>)
    requires geo.grain > 0
  {
    || SectorFrom(geo, dirty, 1)
    || (Holds(geo, dirty, 0) && 1 !in dirty && geo.bits > 1 && !OneChunkFrom(geo, dirty, 0))
  }

  // ---------------------------------------------------------------- losing runs

  function FreshClient(dirty: set<nat>, target: seq<Sector>): Client {
    Client(NotRunning, NO_RESYNC, false, Up, Completed, false, true, dirty, dirty, 0, 0, [], Chunk(0, 0), target, 0)
  }

  /** Pause in the first chunk of grain g, break it off, and stand at the next grain. */
  lemma BreaksOff(geo: Geometry, snap: seq<Sector>, c: Client, g: nat) returns (actions: seq<Action>)
    requires Fits(geo, snap, c) && c.thread == Head(0) && !c.paused && 2 <= g < geo.bits && g in c.bitmap
    ensures Possible(geo, snap, c, actions)
    ensures var d := After(geo, snap, c, actions);
            && d.thread == Head(g + 1) && d.paused && d.begun == c.begun && d.last == g
            && forall x: nat :: x < geo.cap && geo.GrainOf(x) == g ==> d.target[x] == c.target[x]
  {
    hide Possible, After;
    actions := RunTo(geo, snap, c, g);
    var d := Extend(geo, snap, c, actions, Tick);
    d := Extend(geo, snap, c, actions + [Tick], AskPause);
    d := Extend(geo, snap, c, actions + [Tick] + [AskPause], Tick);
    actions := actions + [Tick] + [AskPause] + [Tick];
  }

  /** A sector in grain 2 or above: the old thread breaks its grain off, is resumed, and finishes without it. */
  lemma BrokenOffIsLost(geo: Geometry, dirty: set<nat>, x: nat)
    requires geo.Valid() && (forall g :: g in dirty ==> g < geo.bits)
    requires x < geo.cap && geo.GrainOf(x) in dirty && geo.GrainOf(x) >= 2
    ensures !ResumesNeedNotWait(geo, dirty)
  {
    var g := geo.GrainOf(x);
    var snap: seq<Sector> := seq(geo.cap, i => 1);
    var c := FreshClient(dirty, seq(geo.cap, i => 0));
    var b := Begin(c, NO_RESYNC);
    hide Possible, After;
    var actions := BreaksOff(geo, snap, b, g);
    var d := After(geo, snap, b, actions);
    var h := Header(DATA, d.asked);
    var n := Resumed(d, AtHead(g + 1), h, []);
    var schedule := SkippingLoses(geo, snap, dirty, n, 0, x);
    assert !AllEndWell(geo, snap, dirty, n);
    assert !ResumedWell(geo, snap, dirty, c, actions, AtHead(g + 1), h, []);
  }

  /** One grain on, in normal mode. */
  lemma OverOne(geo: Geometry, snap: seq<Sector>, c: Client) returns (actions: seq<Action>)
    requires Fits(geo, snap, c) && c.thread.Head? && c.thread.bit < geo.bits && !c.paused && c.mode == NO_RESYNC
    ensures Possible(geo, snap, c, actions)
    ensures var d := After(geo, snap, c, actions); var b := c.thread.bit;
            && WentOver(geo, c, d, b, b + 1) && d.thread == Head(b + 1) && d.last == b
            && (if b in c.bitmap then d.rows == MovePosition(c.rows, b, c.rep) && d.persisted == b
                else d.rows == c.rows && d.persisted == c.persisted)
  {
    hide Possible, After;
    if c.thread.bit in c.bitmap {
      actions := OverGrain(geo, snap, c);
    } else {
      actions := RunTo(geo, snap, c, c.thread.bit + 1);
    }
  }

  /** Past the first two grains, pause, crash, come back paused: at the position written last, with the header as a
      new daemon has it. */
  lemma PausedCrash(geo: Geometry, snap: seq<Sector>, dirty: set<nat>, target: seq<Sector>) returns (actions: seq<Action>)
    requires geo.Valid() && |snap| == |target| == geo.cap && geo.bits > 1 && forall g :: g in dirty ==> g < geo.bits
    ensures Fits(geo, snap, FreshClient(dirty, target)) && Ready(geo, FreshClient(dirty, target))
    ensures Possible(geo, snap, Begin(FreshClient(dirty, target), NO_RESYNC), actions)
    ensures var d := After(geo, snap, Begin(FreshClient(dirty, target), NO_RESYNC), actions);
            && d.begun && d.paused && d.asked == Chunk(0, 0) && d.bitmap == dirty
            && d.last == (if 1 in dirty then 1 else 0) && d.thread == Head(d.last)
  {
    var b := Begin(FreshClient(dirty, target), NO_RESYNC);
    hide Possible, After;
    var first := OverOne(geo, snap, b);
    var d := After(geo, snap, b, first);
    assert d.rows == [Row(0, InProgress)] && d.persisted == 0;
    var second := OverOne(geo, snap, d);
    Concat(geo, snap, b, first, second);
    actions := first + second;
    var e := After(geo, snap, b, actions);
    assert e.rows == [Row(if 1 in dirty then 1 else 0, InProgress)] && e.persisted == (if 1 in dirty then 1 else 0);
    CrashNow(geo, snap, b, actions);
    e := Extend(geo, snap, b, actions, AskPause);
    e := Extend(geo, snap, b, actions + [AskPause], Crash);
    actions := actions + [AskPause] + [Crash];
  }

  lemma CrashNow(geo: Geometry, snap: seq<Sector>, b: Client, actions: seq<Action>)
    requires Fits(geo, snap, b)
    requires var e := After(geo, snap, b, actions);
             e.begun && e.saved == e.bitmap && e.last > 0 && |e.rows| == 1 && e.rows[0].pos == e.persisted
    ensures var f := Step(geo, snap, After(geo, snap, b, actions), AskPause); Enabled(geo, f, Crash)
  {
  }

  /** A sector in grain 1: the new daemon's thread leaves the loop because of the pause, is resumed, and goes on to
      terminate; the request it sends instead is for the chunk an empty header names. */
  lemma EmptyHeaderIsLost(geo: Geometry, dirty: set<nat>, x: nat)
    requires geo.Valid() && (forall g :: g in dirty ==> g < geo.bits)
    requires x < geo.cap && geo.GrainOf(x) == 1 && 1 in dirty
    ensures !ResumesNeedNotWait(geo, dirty)
  {
    GrainInBitmap(geo, x);
    var snap := Mark(geo, x);
    var c := FreshClient(dirty, seq(geo.cap, i => 0));
    var b := Begin(c, NO_RESYNC);
    hide Possible, After;
    var actions := PausedCrash(geo, snap, dirty, c.target);
    var d := Extend(geo, snap, b, actions, Tick);
    actions := actions + [Tick];
    assert d.thread == OutOfLoop && d.last == 1;
    var h := Header(DATA, Chunk(0, 0));
    var n := Resumed(d, Out, h, []);
    var first := ToClosing(geo, snap, dirty, n);
    var m := Moves(geo, snap, dirty, n, first);
    hide Moves;
    assert NotFirst(dirty, 1, Chunk(0, 0));
    var second := OutOfStep(geo, dirty, m, 0, 1, 1, x);
    Joined(geo, snap, dirty, n, first, second);
    assert !EndsWell(geo, snap, dirty, n, first + second);
    assert !ResumedWell(geo, snap, dirty, c, actions, Out, h, []);
  }

  lemma ToClosing(geo: Geometry, snap: seq<Sector>, dirty: set<nat>, n: Net) returns (schedule: seq<nat>)
    requires Wire.Sized(geo, snap, n) && |n.stages| == 2 && n.stages[0] == Out && !n.done && !n.paused
    ensures Moves(geo, snap, dirty, n, schedule) ==
            n.(stages := [Closing, n.stages[1]], header := Header(TERMINATION, n.header.chunk))
  {
    NoneYet(geo, snap, dirty, n);
    OneMore(geo, snap, dirty, n, [], 0);
    OneMore(geo, snap, dirty, n, [] + [0], 0);
    schedule := [] + [0] + [0];
    hide Moves;
    assert n.stages[0 := AtEnd][0 := Closing] == [Closing, n.stages[1]];
  }

  /** A sector in grain 0 only, and more than one chunk: back at position 0 after a crash, both threads transfer
      everything. */
  lemma BackAtZeroIsLost(geo: Geometry, dirty: set<nat>, x: nat)
    requires geo.Valid() && (forall g :: g in dirty ==> g < geo.bits)
    requires x < geo.cap && geo.GrainOf(x) == 0 && 0 in dirty && 1 !in dirty && geo.bits > 1
    requires !OneChunkFrom(geo, dirty, 0)
    ensures !ResumesNeedNotWait(geo, dirty)
  {
    var snap := Mark(geo, x);
    var c := FreshClient(dirty, seq(geo.cap, i => 0));
    hide Possible, After;
    var actions := PausedCrash(geo, snap, dirty, c.target);
    var d := After(geo, snap, Begin(c, NO_RESYNC), actions);
    var h := Header(DATA, Chunk(0, 0));
    var n := Resumed(d, AtHead(0), h, []);
    hide OneChunkFrom;
    var schedule := TwoThreadsLose(geo, dirty, n, 0, 1, 0, 0, Chunk(0, 0), x);
    assert !AllEndWell(geo, snap, dirty, n);
    assert !ResumedWell(geo, snap, dirty, c, actions, AtHead(0), h, []);
  }

  // ---------------------------------------------------------------- safe runs

  /** What pauses and crashes leave alone in every run of a round. */
  ghost predicate PauseComesLater(geo: Geometry, snap: seq<Sector>, dirty: set<nat>, c: Client)
    requires Fits(geo, snap, c)
  {
    && MayStartAt(geo, snap, dirty, c.target, c.last)
    && MayStartAt(geo, snap, dirty, c.target, c.persisted)
    && (c.paused ==> geo.bits > 1 && DoneBelow(geo, snap, dirty, c.target, 2))
    && (1 in dirty && c.last > 0 ==> c.persisted > 0)
    && (1 in dirty && c.paused ==> c.last > 0)
    && (c.paused && c.last == 0 ==> c.thread == NotRunning || c.thread == Head(0) || c.thread == OutOfLoop)
    && (geo.Chunks() == 1 && dirty == {0} && (c.paused || c.last > 0) ==> c.asked == Chunk(0, 0))
  }

  lemma SkippedGrain(geo: Geometry, snap: seq<Sector>, dirty: set<nat>, c: Client)
    requires Open(geo, snap, dirty, c) && c.thread.Head? && !c.paused
    requires c.thread.bit < geo.bits && c.thread.bit !in dirty
    ensures MayStartAt(geo, snap, dirty, c.target, c.thread.bit)
  {
  }

  lemma PauseStillComesLater(geo: Geometry, snap: seq<Sector>, dirty: set<nat>, c: Client, a: Action)
    requires Open(geo, snap, dirty, c) && Enabled(geo, c, a) && PauseComesLater(geo, snap, dirty, c)
    requires c.mode == NO_RESYNC && Step(geo, snap, c, a).begun
    ensures PauseComesLater(geo, snap, dirty, Step(geo, snap, c, a))
  {
    StillMayStart(geo, snap, dirty, c, a);
    assert MayStartAt(geo, snap, dirty, c.target, 0);
    if DoneBelow(geo, snap, dirty, c.target, 2) {
      StaysDone(geo, snap, dirty, c, a, 2);
    }
    assert c.last > 0 ==> geo.bits > 1 && DoneBelow(geo, snap, dirty, c.target, 2);
    if a == Tick && c.thread.InGrain? && (c.thread.chunk == geo.Chunks() || c.paused) {
      GrainLeft(geo, snap, dirty, c);
    }
    if a == Tick && c.thread.Head? && !c.paused && c.thread.bit < geo.bits && c.thread.bit !in dirty {
      SkippedGrain(geo, snap, dirty, c);
    }
    hide MayStartAt, DoneBelow, ChunksDone, Copied;
  }

  lemma {:induction false} PauseAlwaysComesLater(geo: Geometry, snap: seq<Sector>, dirty: set<nat>, c: Client,
                                                 actions: seq<Action>)
    requires Open(geo, snap, dirty, c) && PauseComesLater(geo, snap, dirty, c) && c.mode == NO_RESYNC
    requires Possible(geo, snap, c, actions) && After(geo, snap, c, actions).begun
    ensures var d := After(geo, snap, c, actions);
            Open(geo, snap, dirty, d) && PauseComesLater(geo, snap, dirty, d) && d.mode == NO_RESYNC
  {
    hide Open, ResyncSteps.Closed, Possible, After, Step, Enabled, PauseComesLater;
    OpenIsRound(geo, snap, dirty, c);
    if actions == [] {
      EmptyRun(geo, snap, c);
    } else {
      var front, a := actions[..|actions| - 1], actions[|actions| - 1];
      LastStep(geo, snap, c, actions);
      RunKeepsRound(geo, snap, dirty, c, front);
      var d := After(geo, snap, c, front);
      BegunBefore(geo, snap, dirty, d, a);
      StillBegun(geo, snap, dirty, d);
      PauseAlwaysComesLater(geo, snap, dirty, c, front);
      PauseStillComesLater(geo, snap, dirty, d, a);
      StepKeepsRound(geo, snap, dirty, d, a);
      BegunIsOpen(geo, snap, dirty, Step(geo, snap, d, a));
      StaysNormal(geo, snap, d, a);
    }
  }

  lemma StillBegun(geo: Geometry, snap: seq<Sector>, dirty: set<nat>, d: Client)
    requires Open(geo, snap, dirty, d)
    ensures d.begun
  {
  }

  lemma StaysNormal(geo: Geometry, snap: seq<Sector>, d: Client, a: Action)
    requires Fits(geo, snap, d) && d.mode == NO_RESYNC
    ensures Step(geo, snap, d, a).mode == NO_RESYNC
  {
  }

  /** In a round that is not at risk every dirty sector is right once a pause can come, and if one of them is
      still to be transferred there is nothing else. */
  lemma ResumedInTime(geo: Geometry, snap: seq<Sector>, dirty: set<nat>, d: Client, s: Stage, h: Header,
                      replies: seq<Chunk>)
    requires Open(geo, snap, dirty, d) && PauseComesLater(geo, snap, dirty, d) && d.paused
    requires PlaceInSteps(s) == d.thread && PlaceFits(geo, dirty, d.last, s) && WireLeft(d, s, h, replies)
    requires !AtRisk(geo, dirty)
    ensures AllEndWell(geo, snap, dirty, Resumed(d, s, h, replies))
  {
    if SectorFrom(geo, dirty, d.last) {
      var x: nat :| x < geo.cap && geo.GrainOf(x) in dirty && geo.GrainOf(x) >= d.last;
      assert !SectorFrom(geo, dirty, 1);
      assert geo.GrainOf(x) == 0 && d.last == 0;
      assert Holds(geo, dirty, 0);
      assert OneChunkFrom(geo, dirty, 0);
      assert dirty == {0};
      assert Right(geo, snap, d.target, 0);
      OneChunkIsSafe(geo, snap, dirty, d, s, h, replies, 0);
    } else {
      NoSectorIsSafe(geo, snap, dirty, d, s, h, replies);
    }
  }

  /** A round is safe from resumes that do not wait, in every state any run brings it to, if and only if it is not
      at risk: none of its grains from 1 on holds a sector, and grain 0 is clean or holds none, or is its only chunk,
      or no crash can bring a paused round back to it. */
  lemma {:induction false} ResumesNeedNotWaitIff(geo: Geometry, dirty: set<nat>)
    requires geo.Valid() && forall g :: g in dirty ==> g < geo.bits
    ensures ResumesNeedNotWait(geo, dirty) <==> !AtRisk(geo, dirty)
  {
    if AtRisk(geo, dirty) {
      RisksAreLost(geo, dirty);
    } else {
      forall snap, c, actions, s, h, replies
        ensures ResumedWell(geo, snap, dirty, c, actions, s, h, replies)
      {
        SafeRun(geo, snap, dirty, c, actions, s, h, replies);
      }
    }
  }

  lemma RisksAreLost(geo: Geometry, dirty: set<nat>)
    requires geo.Valid() && (forall g :: g in dirty ==> g < geo.bits) && AtRisk(geo, dirty)
    ensures !ResumesNeedNotWait(geo, dirty)
  {
    hide ResumesNeedNotWait, OneChunkFrom;
    if SectorFrom(geo, dirty, 1) {
      var x: nat :| x < geo.cap && geo.GrainOf(x) in dirty && geo.GrainOf(x) >= 1;
      if geo.GrainOf(x) == 1 {
        EmptyHeaderIsLost(geo, dirty, x);
      } else {
        BrokenOffIsLost(geo, dirty, x);
      }
    } else {
      var x: nat :| x < geo.cap && geo.GrainOf(x) == 0;
      BackAtZeroIsLost(geo, dirty, x);
    }
  }

  lemma SafeRun(geo: Geometry, snap: seq<Sector>, dirty: set<nat>, c: Client, actions: seq<Action>, s: Stage,
                h: Header, replies: seq<Chunk>)
    requires geo.Valid() && !AtRisk(geo, dirty)
    ensures ResumedWell(geo, snap, dirty, c, actions, s, h, replies)
  {
    if Fits(geo, snap, c) && Ready(geo, c) && !c.paused && c.bitmap == dirty {
      var b := Begin(c, NO_RESYNC);
      BeginOpens(geo, snap, c, NO_RESYNC);
      assert PauseComesLater(geo, snap, dirty, b);
      hide Possible, After, AllEndWell, AtRisk;
      if Possible(geo, snap, b, actions) {
        var d := After(geo, snap, b, actions);
        if d.begun && d.paused && PlaceInSteps(s) == d.thread && PlaceFits(geo, dirty, d.last, s)
           && WireLeft(d, s, h, replies) {
          PauseAlwaysComesLater(geo, snap, dirty, b, actions);
          ResumedInTime(geo, snap, dirty, d, s, h, replies);
        }
      }
    }
  }
}
