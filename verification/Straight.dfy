/** What a running thread does when nothing interferes. */
module Straight {
  import opened Geometry
  import opened ResyncSteps
  import opened Resume

  /** From c the thread has gone on to d over the grains lo..hi-1: it wrote no other sector, and everything
      but its place, its positions and the target is as it was. */
  ghost predicate WentOver(geo: Geometry, c: Client, d: Client, lo: nat, hi: nat) {
    && geo.grain > 0 && |d.target| == |c.target| && |d.rows| == |c.rows|
    && d.mode == c.mode && d.paused == c.paused && d.outage == c.outage && d.rep == c.rep
    && d.begun == c.begun && d.loaded == c.loaded && d.bitmap == c.bitmap && d.saved == c.saved
    && (forall i :: 0 <= i < |c.rows| ==>
          d.rows[i].state == c.rows[i].state && (c.rows[i].state != c.rep ==> d.rows[i] == c.rows[i]))
    && (c.mode == NO_RESYNC && (forall g :: lo <= g < hi ==> g !in c.bitmap) ==>
          d.rows == c.rows && d.persisted == c.persisted && d.asked == c.asked)
    && (forall x: nat :: x < |c.target| && !(lo <= geo.GrainOf(x) < hi) ==> d.target[x] == c.target[x])
  }

  lemma WentOverBoth(geo: Geometry, c: Client, d: Client, e: Client, lo: nat, mid: nat, hi: nat)
    requires lo <= mid <= hi && WentOver(geo, c, d, lo, mid) && WentOver(geo, d, e, mid, hi)
    ensures WentOver(geo, c, e, lo, hi)
  {
  }

  lemma OneTick(geo: Geometry, snap: seq<Sector>, c: Client)
    requires Fits(geo, snap, c) && !c.paused && (c.thread.Head? || c.thread.InGrain?)
    requires c.thread.bit < geo.bits
    requires c.thread.InGrain? ==> c.thread.chunk <= geo.Chunks() && Copies(c, c.thread.bit)
    ensures var d := Step(geo, snap, c, Tick); var b := c.thread.bit;
            && Enabled(geo, c, Tick) && WentOver(geo, c, d, b, b + 1)
            && (if d.thread.InGrain? || c.thread.Head? then d.rows == c.rows && d.persisted == c.persisted
                else d.rows == MovePosition(c.rows, b, c.rep) && d.persisted == b)
            && match c.thread
               case Head(_) =>
                 if Copies(c, b) then d.thread == InGrain(b, 0) && d.last == c.last
                 else d.thread == Head(b + 1) && d.last == b
               case InGrain(_, k) =>
                 if k < geo.Chunks() then d.thread == InGrain(b, k + 1) && d.last == c.last
                 else d.thread == Head(b + 1) && d.last == b
  {
    if c.thread.InGrain? && c.thread.chunk < geo.Chunks() {
      forall x: nat | x < geo.cap && geo.GrainOf(x) != c.thread.bit
        ensures TickStep(geo, snap, c).target[x] == c.target[x]
      {
        ChunksPartition(geo, x, c.thread.bit, c.thread.chunk);
      }
    }
  }

  lemma {:induction false} OverGrain(geo: Geometry, snap: seq<Sector>, c: Client) returns (actions: seq<Action>)
    requires Fits(geo, snap, c) && c.thread.Head? && c.thread.bit < geo.bits && !c.paused
    ensures Possible(geo, snap, c, actions) && OnlyTicks(actions)
    ensures var d := After(geo, snap, c, actions); var b := c.thread.bit;
            && WentOver(geo, c, d, b, b + 1) && d.thread == Head(b + 1) && d.last == b
            && (b in c.bitmap ==> d.rows == MovePosition(c.rows, b, c.rep) && d.persisted == b)
  {
    var b := c.thread.bit;
    actions := [];
    EmptyRun(geo, snap, c);
    var d := c;
    hide Possible, After, Step, Enabled;
    while d.thread != Head(b + 1)
      invariant Possible(geo, snap, c, actions) && OnlyTicks(actions) && d == After(geo, snap, c, actions)
      invariant WentOver(geo, c, d, b, b + 1)
      invariant match d.thread
                case Head(h) =>
                  || (h == b && d.rows == c.rows)
                  || (h == b + 1 && d.last == b && (b in c.bitmap ==> d.rows == MovePosition(c.rows, b, c.rep) && d.persisted == b))
                case InGrain(g, k) => g == b && k <= geo.Chunks() && d.rows == c.rows && Copies(c, b)
                case _ => false
      decreases match d.thread
                case Head(h) => if h == b then geo.Chunks() + 2 else 0
                case InGrain(_, k) => geo.Chunks() - k + 1
                case _ => 0
    {
      OneTick(geo, snap, d);
      d := Extend(geo, snap, c, actions, Tick);
      actions := actions + [Tick];
    }
  }

  /** On to bit `end`. */
  lemma {:induction false} RunTo(geo: Geometry, snap: seq<Sector>, c: Client, end: nat) returns (actions: seq<Action>)
    requires Fits(geo, snap, c) && c.thread.Head? && c.thread.bit <= end <= geo.bits && !c.paused
    ensures Possible(geo, snap, c, actions) && OnlyTicks(actions)
    ensures var d := After(geo, snap, c, actions);
            && WentOver(geo, c, d, c.thread.bit, end) && d.thread == Head(end)
            && d.last == if c.thread.bit < end then end - 1 else c.last
    decreases end
  {
    hide Possible, After, WentOver;
    if c.thread.bit == end {
      actions := [];
      EmptyRun(geo, snap, c);
      WentNowhere(geo, snap, c, end);
    } else {
      var first := RunTo(geo, snap, c, end - 1);
      var d := After(geo, snap, c, first);
      Unpaused(geo, c, d, c.thread.bit, end - 1);
      var second := OverGrain(geo, snap, d);
      Concat(geo, snap, c, first, second);
      WentOverBoth(geo, c, d, After(geo, snap, d, second), c.thread.bit, end - 1, end);
      actions := first + second;
    }
  }

  lemma WentNowhere(geo: Geometry, snap: seq<Sector>, c: Client, at: nat)
    requires Fits(geo, snap, c)
    ensures WentOver(geo, c, c, at, at)
  {
  }

  lemma Unpaused(geo: Geometry, c: Client, d: Client, lo: nat, hi: nat)
    requires WentOver(geo, c, d, lo, hi) && !c.paused
    ensures !d.paused
  {
  }

  /** On past the last test for a pause. */
  lemma {:induction false} RunToEnding(geo: Geometry, snap: seq<Sector>, c: Client) returns (actions: seq<Action>)
    requires Fits(geo, snap, c) && c.thread.Head? && c.thread.bit <= geo.bits && !c.paused
    ensures Possible(geo, snap, c, actions) && OnlyTicks(actions)
    ensures var d := After(geo, snap, c, actions);
            && WentOver(geo, c, d, c.thread.bit, geo.bits) && d.thread == Ending
            && (c.thread.bit < geo.bits ==> d.last == geo.bits - 1)
  {
    hide Possible, After;
    actions := RunTo(geo, snap, c, geo.bits);
    var d := Extend(geo, snap, c, actions, Tick);
    d := Extend(geo, snap, c, actions + [Tick], Tick);
    actions := actions + [Tick] + [Tick];
  }

  /** On to completion. */
  lemma {:induction false} RunToCompletion(geo: Geometry, snap: seq<Sector>, c: Client) returns (actions: seq<Action>)
    requires Fits(geo, snap, c) && c.thread.Head? && c.thread.bit <= geo.bits && !c.paused && c.rep != Completed
    ensures Possible(geo, snap, c, actions) && OnlyTicks(actions)
    ensures var d := After(geo, snap, c, actions);
            && d.rep == Completed && d.thread == NotRunning && d.last == 0
            && forall x: nat :: x < geo.cap && geo.GrainOf(x) < c.thread.bit ==> d.target[x] == c.target[x]
    ensures var d := After(geo, snap, c, actions);
            c.mode == NO_RESYNC ==>
              forall x: nat :: x < geo.cap && geo.GrainOf(x) !in c.bitmap ==> d.target[x] == c.target[x]
  {
    hide Possible, After;
    actions := RunToEnding(geo, snap, c);
    if c.mode == NO_RESYNC {
      NormalThreadLeavesClean(geo, snap, c, actions);
    }
    var d := Extend(geo, snap, c, actions, Tick);
    actions := actions + [Tick];
  }

  /** A thread in normal mode writes no clean grain, wherever it started. */
  lemma {:induction false} NormalThreadLeavesClean(geo: Geometry, snap: seq<Sector>, c: Client, actions: seq<Action>)
    requires Fits(geo, snap, c) && Possible(geo, snap, c, actions) && OnlyTicks(actions)
    requires c.mode == NO_RESYNC && c.thread.Head?
    ensures var d := After(geo, snap, c, actions);
            && d.mode == NO_RESYNC && d.bitmap == c.bitmap
            && (d.thread.InGrain? ==> d.thread.bit in c.bitmap)
            && forall x: nat :: x < geo.cap && geo.GrainOf(x) !in c.bitmap ==> d.target[x] == c.target[x]
  {
    hide Possible, After;
    if actions == [] {
      EmptyRun(geo, snap, c);
    } else {
      var front := actions[..|actions| - 1];
      LastStep(geo, snap, c, actions);
      NormalThreadLeavesClean(geo, snap, c, front);
      var d := After(geo, snap, c, front);
      assert actions[|actions| - 1] == Tick;
      forall x: nat | x < geo.cap && geo.GrainOf(x) !in c.bitmap
        ensures Step(geo, snap, d, Tick).target[x] == d.target[x]
      {
        if d.thread.InGrain? && d.thread.chunk < geo.Chunks() {
          ChunksPartition(geo, x, d.thread.bit, d.thread.chunk);
        }
      }
    }
  }
}
