/** The position left over by a pause that comes between the loop's last test for one and the second test in
    `replication_terminate`, and what it does to the next round. */
module Leftover {
  import opened Geometry
  import opened ResyncSteps
  import opened Resume
  import opened Straight

  /** Since the thread passed the loop's last test a pause command has come. */
  ghost predicate LatePause(geo: Geometry, snap: seq<Sector>, c: Client, actions: seq<Action>)
    requires Fits(geo, snap, c)
  {
    actions != [] &&
    var front, a := actions[..|actions| - 1], actions[|actions| - 1];
    && After(geo, snap, c, front).thread == Ending
    && (a == AskPause || (a != Crash && LatePause(geo, snap, c, front)))
  }

  /** What one step does to a thread that is at its end, or brings it there. */
  lemma EndingStep(geo: Geometry, snap: seq<Sector>, dirty: set<nat>, d: Client, a: Action)
    requires Open(geo, snap, dirty, d) && Enabled(geo, d, a)
    ensures var e := Step(geo, snap, d, a);
            && (e.thread == Ending && d.thread == Ending ==>
                  a == AskPause && (e.paused <==> geo.bits > 1 || d.paused))
            && (e.thread == Ending && d.thread != Ending ==> !e.paused)
            && (!e.begun ==> d.thread == Ending && a == Tick && e.last == if d.paused then geo.bits - 1 else 0)
            && (!e.begun ==> e.rep == Completed && e.thread == NotRunning && !e.paused)
  {
    hide DoneBelow, ChunksDone, SetStates, MovePosition;
  }

  /** At the end of the loop a round is paused exactly when a pause has come there; only a round of a single
      grain, which has no position to keep, ignores it. */
  lemma {:induction false} PausedAtEndingIff(geo: Geometry, snap: seq<Sector>, dirty: set<nat>, c: Client,
                                             actions: seq<Action>)
    requires Open(geo, snap, dirty, c) && c.thread != Ending
    requires Possible(geo, snap, c, actions) && After(geo, snap, c, actions).begun
    ensures After(geo, snap, c, actions).thread == Ending ==>
              (After(geo, snap, c, actions).paused <==> LatePause(geo, snap, c, actions) && geo.bits > 1)
  {
    hide Open, Closed, Round, Possible, After, Step, Enabled;
    OpenIsRound(geo, snap, dirty, c);
    if actions == [] {
      EmptyRun(geo, snap, c);
    } else {
      var front, a := actions[..|actions| - 1], actions[|actions| - 1];
      LastStep(geo, snap, c, actions);
      RunKeepsRound(geo, snap, dirty, c, front);
      var d := After(geo, snap, c, front);
      BegunBefore(geo, snap, dirty, d, a);
      PausedAtEndingIff(geo, snap, dirty, c, front);
      EndingStep(geo, snap, dirty, d, a);
    }
  }

  /** The step that ends a round resets the position if and only if no pause has come since the loop's last
      test for one, or the device has a single grain. */
  lemma {:induction false} PositionResetIff(geo: Geometry, snap: seq<Sector>, c: Client, mode: Mode,
                                            actions: seq<Action>, a: Action)
    requires Fits(geo, snap, c) && Ready(geo, c) && Possible(geo, snap, Begin(c, mode), actions)
    requires var d := After(geo, snap, Begin(c, mode), actions);
             d.begun && Enabled(geo, d, a) && !Step(geo, snap, d, a).begun
    ensures var e := Step(geo, snap, After(geo, snap, Begin(c, mode), actions), a);
            && e.rep == Completed && e.thread == NotRunning && !e.paused
            && e.last == if LatePause(geo, snap, Begin(c, mode), actions) then geo.bits - 1 else 0
  {
    var b := Begin(c, mode);
    BeginOpens(geo, snap, c, mode);
    assert b.thread != Ending;
    hide Open, Closed, Round, Possible, After, Step, Enabled, LatePause, Begin, Ready;
    OpenIsRound(geo, snap, c.bitmap, b);
    RunKeepsRound(geo, snap, c.bitmap, b, actions);
    var d := After(geo, snap, b, actions);
    BegunIsOpen(geo, snap, c.bitmap, d);
    PausedAtEndingIff(geo, snap, c.bitmap, b, actions);
    EndingStep(geo, snap, c.bitmap, d, a);
  }

  /** A round that has ended with its position reset stays ended: pauses and resumes are ignored, and a daemon that
      crashes comes back without a thread if its earlier rounds have ended too. */
  lemma {:induction false} EndedStaysEnded(geo: Geometry, snap: seq<Sector>, c: Client, mode: Mode, actions: seq<Action>,
                                           a: Action, b: Action)
    requires Fits(geo, snap, c) && Ready(geo, c) && Possible(geo, snap, Begin(c, mode), actions)
    requires var d := After(geo, snap, Begin(c, mode), actions);
             d.begun && Enabled(geo, d, a) && !Step(geo, snap, d, a).begun
    requires !LatePause(geo, snap, Begin(c, mode), actions) && b in {AskPause, AskResume, Crash}
    ensures var e := Step(geo, snap, After(geo, snap, Begin(c, mode), actions), a);
            Step(geo, snap, e, b) == e
  {
    var d := After(geo, snap, Begin(c, mode), actions);
    PositionResetIff(geo, snap, c, mode, actions, a);
    BeginOpens(geo, snap, c, mode);
    OpenIsRound(geo, snap, c.bitmap, Begin(c, mode));
    RunKeepsRound(geo, snap, c.bitmap, Begin(c, mode), actions);
    BegunIsOpen(geo, snap, c.bitmap, d);
    hide Possible, After, Ready, LatePause, Begin;
    EndedRows(geo, snap, c.bitmap, d, a);
    NoneOpen(Step(geo, snap, d, a).rows);
  }

  lemma EndedRows(geo: Geometry, snap: seq<Sector>, dirty: set<nat>, d: Client, a: Action)
    requires Open(geo, snap, dirty, d) && Enabled(geo, d, a) && !Step(geo, snap, d, a).begun
    ensures forall i :: 0 <= i < |Step(geo, snap, d, a).rows| ==> Step(geo, snap, d, a).rows[i].state == Completed
  {
    hide DoneBelow, ChunksDone, MovePosition;
  }

  lemma NoneOpen(rows: seq<Row>)
    requires forall i :: 0 <= i < |rows| ==> rows[i].state == Completed
    ensures FirstOpen(rows) == |rows|
  {
  }

  // ---------------------------------------------------------------- the next round

  /** The round after m: if it completes, every grain of the bitmap it was sent is copied. */
  ghost predicate NextEndsWell(geo: Geometry, snap: seq<Sector>, m: Client, sent: set<nat>, actions: seq<Action>) {
    var c := LoadBitmap(m, sent);
    Fits(geo, snap, c) && (forall g :: g in sent ==> g < geo.bits) ==>
      var b := Begin(c, NO_RESYNC);
      Possible(geo, snap, b, actions) && After(geo, snap, b, actions).rep == Completed ==>
        forall x: nat :: x < geo.cap && geo.GrainOf(x) in sent ==> After(geo, snap, b, actions).target[x] == snap[x]
  }

  ghost predicate NextRoundIsSafe(geo: Geometry, m: Client) {
    forall snap, sent, actions :: NextEndsWell(geo, snap, m, sent, actions)
  }

  /** Contents that differ from the target's everywhere. */
  function Changed(target: seq<Sector>): seq<Sector> {
    seq(|target|, i requires 0 <= i < |target| => target[i] + 1)
  }

  /** The link fails in the first grain, and recovery starts at the position the client holds. */
  lemma CutOffAtOnce(geo: Geometry, snap: seq<Sector>, b: Client) returns (actions: seq<Action>)
    requires Fits(geo, snap, b) && b.thread == Head(0) && b.begun && Copies(b, 0) && !b.paused
    ensures Possible(geo, snap, b, actions)
    ensures After(geo, snap, b, actions) == Launch(b.(outage := Up, asked := Chunk(0, 0)), b.last)
  {
    hide After, Possible;
    EmptyRun(geo, snap, b);
    var d := Extend(geo, snap, b, [], Tick);
    d := Extend(geo, snap, b, [] + [Tick], LinkFails);
    d := Extend(geo, snap, b, [] + [Tick] + [LinkFails], Recover);
    actions := [] + [Tick] + [LinkFails] + [Recover];
  }

  /** With a position left over it then runs to the end past that grain. */
  lemma SkipsTheFirstGrain(geo: Geometry, m: Client) returns (actions: seq<Action>)
    requires geo.Valid() && geo.cap > 0 && |m.target| == geo.cap
    requires m.thread == NotRunning && !m.paused && 0 < m.last < geo.bits
    ensures !NextEndsWell(geo, Changed(m.target), m, {0}, actions)
  {
    hide After, Possible, FirstWordMarked;
    var snap := Changed(m.target);
    var b := Begin(LoadBitmap(m, {0}), NO_RESYNC);
    var first := CutOffAtOnce(geo, snap, b);
    var second := RunToCompletion(geo, snap, After(geo, snap, b, first));
    Concat(geo, snap, b, first, second);
    actions := first + second;
    DivIsInterval(0, geo.grain, 0);
    assert After(geo, snap, b, actions).target[0] == m.target[0];
  }

  /** A round may follow exactly when the position of the one before has been reset. */
  lemma {:induction false} PositionMustBeReset(geo: Geometry, m: Client)
    requires geo.Valid() && geo.cap > 0 && |m.target| == geo.cap
    requires m.thread == NotRunning && !m.paused && m.last < geo.bits
    ensures NextRoundIsSafe(geo, m) <==> m.last == 0
  {
    if m.last == 0 {
      forall snap, sent, actions
        ensures NextEndsWell(geo, snap, m, sent, actions)
      {
        var c := LoadBitmap(m, sent);
        if Fits(geo, snap, c) && (forall g :: g in sent ==> g < geo.bits)
           && Possible(geo, snap, Begin(c, NO_RESYNC), actions) {
          BeginOpens(geo, snap, c, NO_RESYNC);
          RunKeepsRound(geo, snap, sent, Begin(c, NO_RESYNC), actions);
          forall x: nat | x < geo.cap
            ensures geo.GrainOf(x) < geo.bits
          {
            GrainInBitmap(geo, x);
          }
        }
      }
    } else {
      var actions := SkipsTheFirstGrain(geo, m);
    }
  }

  /** So a round leaves its client fit for the next one if and only if no pause came at its very end, or the
      device has a single grain. */
  lemma {:induction false} NextRoundIsSafeIff(geo: Geometry, snap: seq<Sector>, c: Client, mode: Mode,
                                              actions: seq<Action>, a: Action)
    requires Fits(geo, snap, c) && Ready(geo, c) && Possible(geo, snap, Begin(c, mode), actions) && geo.cap > 0
    requires var d := After(geo, snap, Begin(c, mode), actions);
             d.begun && Enabled(geo, d, a) && !Step(geo, snap, d, a).begun
    ensures NextRoundIsSafe(geo, Step(geo, snap, After(geo, snap, Begin(c, mode), actions), a)) <==>
              !LatePause(geo, snap, Begin(c, mode), actions) || geo.bits == 1
  {
    hide Open, Closed, Round, Possible, After, Step, Enabled, LatePause, Ready, NextRoundIsSafe;
    PositionResetIff(geo, snap, c, mode, actions, a);
    PositionMustBeReset(geo, Step(geo, snap, After(geo, snap, Begin(c, mode), actions), a));
  }

  /** Both rounds of such a loss, from any client ready for a round on a device of two grains or more: the
      first completes with a position left over, the second completes and has skipped its only grain. */
  lemma LosesWithLeftover(geo: Geometry, snap: seq<Sector>, c: Client)
    returns (first: seq<Action>, m: Client, second: seq<Action>)
    requires Fits(geo, snap, c) && Ready(geo, c) && !c.paused && geo.bits > 1 && geo.cap > 0
    ensures Possible(geo, snap, Begin(c, NO_RESYNC), first) && m == After(geo, snap, Begin(c, NO_RESYNC), first)
    ensures m.rep == Completed && m.last == geo.bits - 1
    ensures !NextEndsWell(geo, Changed(m.target), m, {0}, second)
  {
    var b := Begin(c, NO_RESYNC);
    hide Possible, After, NextEndsWell;
    first := RunToEnding(geo, snap, b);
    m := Extend(geo, snap, b, first, AskPause);
    m := Extend(geo, snap, b, first + [AskPause], Tick);
    first := first + [AskPause] + [Tick];
    second := SkipsTheFirstGrain(geo, m);
  }
}
