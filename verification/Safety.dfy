/** The invariant of the whole replicator: kernel, server, client and disks together. */
module Safety {
  import opened Geometry
  import opened ResyncSteps
  import opened Resume
  import opened Replication

  // ---------------------------------------------------------------- the invariant

  ghost predicate WithinBits(geo: Geometry, grains: set<nat>) {
    forall g :: g in grains ==> g < geo.bits
  }

  /** KERNEL holds exactly while `bitmap_area` is the base area, USER exactly while it is the other. */
  ghost predicate KernelGood(geo: Geometry, k: Kernel) {
    && k.size > 0
    && (k.user == KERNEL <==> k.area == 0)
    && (k.user == USER <==> k.area == k.size)
    && WithinBits(geo, k.low) && WithinBits(geo, k.high)
  }

  /** Between the copy and the termination the server knows which area it holds, and that area is not
      the one the kernel marks. */
  ghost predicate ServerGood(s: System) {
    match s.server.phase
    case NoRound => Resting(s.kernel) == {}
    case Snapped => s.rested ==> Resting(s.kernel) == {}
    case Copying(_) =>
      && s.server.user != s.kernel.user && !s.server.released
      && s.server.sent <= Marking(s.kernel)
      && (s.rested ==> Resting(s.kernel) == {})
    case Loaded =>
      && s.server.user != s.kernel.user && !s.server.released
      && s.server.sent <= Marking(s.kernel)
      && (s.rested ==> Resting(s.kernel) == {})
    case _ =>
      && s.server.user == s.kernel.user && !s.server.released
      && s.server.sent <= Resting(s.kernel)
      && (s.rested ==> s.cleanFlip)
  }

  /** Marks of the area copied that the client is not sent belong to exposed writes, or to writes marked
      again in the other area. */
  ghost predicate MarksGood(geo: Geometry, s: System)
    requires geo.Valid()
  {
    match s.server.phase
    case Copying(n) => forall g :: g in Marking(s.kernel) && g / 64 < n ==>
      g in s.server.sent || g in s.atRisk || g in PendingGrains(geo, s.pending)
    case Loaded => Marking(s.kernel) <= s.server.sent + s.atRisk + PendingGrains(geo, s.pending)
    case Sending =>
      && Resting(s.kernel) <= s.server.sent + s.exposed
      && Resting(s.kernel) <= s.server.sent + s.atRisk + Marking(s.kernel)
    case Serving =>
      && Resting(s.kernel) <= s.server.sent + s.exposed
      && Resting(s.kernel) <= s.server.sent + s.atRisk + Marking(s.kernel)
    case _ => true
  }

  /** A write on its way has its mark in the area being marked, or is at risk. */
  ghost predicate PendingGood(geo: Geometry, s: System)
    requires geo.Valid()
  {
    PendingGrains(geo, s.pending) <= Marking(s.kernel) + s.atRisk
  }

  /** Where the source has moved on from the snapshot, the grain is marked for the next round. */
  ghost predicate SnapshotGood(geo: Geometry, s: System)
    requires Sized(geo, s)
  {
    if s.server.phase == NoRound then true
    else if BeforeFlip(s.server.phase) then
      forall x: nat :: x < geo.cap && s.source[x] != s.snapshot[x] ==>
        && geo.GrainOf(x) in s.exposed
        && (geo.GrainOf(x) in s.atRisk || geo.GrainOf(x) in PendingGrains(geo, s.pending))
    else
      forall x: nat :: x < geo.cap && s.source[x] != s.snapshot[x] ==>
        geo.GrainOf(x) in Marking(s.kernel) || geo.GrainOf(x) in s.atRisk
  }

  ghost predicate ClientGood(geo: Geometry, s: System)
    requires Sized(geo, s)
  {
    var c := s.client;
    && (c.begun ==> s.server.phase == Serving && Open(geo, s.snapshot, s.server.sent, c))
    && (!c.begun ==> c.thread == NotRunning)
    && (s.server.phase == Serving && c.loaded ==> c.bitmap == s.server.sent)
    && (s.server.phase == Serving && !c.loaded ==>
          DoneBelow(geo, s.snapshot, s.server.sent, c.target, geo.bits))
    && (s.terminating ==> s.server.phase == Serving && !c.begun && !c.loaded)
    && (s.server.phase != Serving ==> !c.loaded)
  }

  /** No update is lost: where target and source differ, the grain is marked in one of the areas. */
  ghost predicate Tracked(geo: Geometry, s: System)
    requires Sized(geo, s)
  {
    forall x: nat :: x < geo.cap && s.client.target[x] != s.source[x] ==>
      geo.GrainOf(x) in s.kernel.low + s.kernel.high + s.atRisk
  }

  /** With nothing exposed and an empty area at the FLIP, target and snapshot differ only where the
      client has been told to copy. */
  ghost predicate PointInTime(geo: Geometry, s: System)
    requires Sized(geo, s)
  {
    s.server.phase in {Sending, Serving} && s.cleanFlip && s.exposed == {} ==>
      forall x: nat :: x < geo.cap && s.client.target[x] != s.snapshot[x] ==> geo.GrainOf(x) in s.server.sent
  }

  ghost predicate Inv(geo: Geometry, s: System) {
    && Sized(geo, s)
    && s.atRisk <= s.exposed
    && KernelGood(geo, s.kernel)
    && ServerGood(s)
    && MarksGood(geo, s)
    && PendingGood(geo, s)
    && SnapshotGood(geo, s)
    && ClientGood(geo, s)
    && Tracked(geo, s)
    && PointInTime(geo, s)
  }

  lemma {:induction false} InitialInv(geo: Geometry, s: System)
    requires Initial(geo, s)
    ensures Inv(geo, s)
  {
  }

  // ---------------------------------------------------------------- writes

  lemma PendingAppend(geo: Geometry, pending: seq<Write>, w: Write)
    requires geo.Valid()
    ensures PendingGrains(geo, pending + [w]) == PendingGrains(geo, pending) + Grains(geo, w)
  {
    forall g: nat | g < geo.bits
      ensures Waiting(geo, pending + [w], g) <==> Waiting(geo, pending, g) || g in Grains(geo, w)
    {
      if Waiting(geo, pending, g) {
        var i :| 0 <= i < |pending| && g in Grains(geo, pending[i]);
        assert (pending + [w])[i] == pending[i];
      }
      assert (pending + [w])[|pending|] == w;
    }
  }

  lemma PendingRemove(geo: Geometry, pending: seq<Write>, i: nat)
    requires geo.Valid() && i < |pending|
    ensures var rest := pending[..i] + pending[i + 1..];
            && PendingGrains(geo, rest) <= PendingGrains(geo, pending)
            && PendingGrains(geo, pending) == PendingGrains(geo, rest) + Grains(geo, pending[i])
  {
    var rest := pending[..i] + pending[i + 1..];
    forall g: nat | g < geo.bits
      ensures Waiting(geo, pending, g) <==> Waiting(geo, rest, g) || g in Grains(geo, pending[i])
    {
      if Waiting(geo, rest, g) {
        var j :| 0 <= j < |rest| && g in Grains(geo, rest[j]);
        assert rest[j] == pending[if j < i then j else j + 1];
      }
      if Waiting(geo, pending, g) {
        var j :| 0 <= j < |pending| && g in Grains(geo, pending[j]);
        if j != i {
          assert rest[if j < i then j else j - 1] == pending[j];
        }
      }
    }
  }

  /** A landing write changes only sectors of the grains it marked. */
  lemma ApplyWithinGrains(geo: Geometry, disk: seq<Sector>, w: Write, x: nat)
    requires geo.Valid() && |disk| == geo.cap && x < geo.cap
    ensures Apply(disk, w)[x] != disk[x] ==> geo.GrainOf(x) in Grains(geo, w)
  {
    if w.start <= x < w.start + |w.data| {
      WriteIsCovered(geo, w.start, |w.data|, x);
    }
  }

  lemma MarkKeepsInv(geo: Geometry, s: System, w: Write)
    requires Inv(geo, s)
    ensures Inv(geo, Next(geo, s, Mark(w)))
  {
    PendingAppend(geo, s.pending, w);
    hide PendingGrains, Open, DoneBelow;
  }

  lemma LandKeepsInv(geo: Geometry, s: System, i: nat)
    requires Inv(geo, s) && i < |s.pending|
    ensures Inv(geo, Next(geo, s, Land(i)))
  {
    var w := s.pending[i];
    PendingRemove(geo, s.pending, i);
    forall x: nat | x < geo.cap
      ensures Apply(s.source, w)[x] != s.source[x] ==> geo.GrainOf(x) in Grains(geo, w)
    {
      ApplyWithinGrains(geo, s.source, w, x);
    }
    hide PendingGrains, Open, DoneBelow, Apply, Grains;
  }

  // ---------------------------------------------------------------- opening a round

  lemma SnapshotKeepsInv(geo: Geometry, s: System)
    requires Inv(geo, s) && CanHappen(geo, s, TakeSnapshot)
    ensures Inv(geo, Next(geo, s, TakeSnapshot))
  {
    hide PendingGrains, Open, DoneBelow;
  }

  lemma StartCopyKeepsInv(geo: Geometry, s: System)
    requires Inv(geo, s) && CanHappen(geo, s, StartCopy)
    ensures Inv(geo, Next(geo, s, StartCopy))
  {
    hide PendingGrains, Open, DoneBelow;
  }

  lemma CopyWordKeepsInv(geo: Geometry, s: System)
    requires Inv(geo, s) && CanHappen(geo, s, CopyWord)
    ensures Inv(geo, Next(geo, s, CopyWord))
  {
    assert CopiedArea(s.kernel, s.server.user) == Marking(s.kernel);
    hide PendingGrains, Open, DoneBelow;
  }

  lemma FlipKeepsInv(geo: Geometry, s: System)
    requires Inv(geo, s) && CanHappen(geo, s, Flip)
    ensures Inv(geo, Next(geo, s, Flip))
  {
    hide PendingGrains, Open, DoneBelow;
  }

  lemma DeliverKeepsInv(geo: Geometry, s: System)
    requires Inv(geo, s) && CanHappen(geo, s, Deliver)
    ensures Inv(geo, Next(geo, s, Deliver))
  {
    hide PendingGrains, Open, DoneBelow, FirstWordMarked;
  }

  // ---------------------------------------------------------------- the client's part

  lemma BeginKeepsInv(geo: Geometry, s: System, mode: Mode)
    requires Inv(geo, s) && CanHappen(geo, s, BeginRound(mode))
    ensures Inv(geo, Next(geo, s, BeginRound(mode)))
  {
    BeginOpens(geo, s.snapshot, s.client, mode);
    hide PendingGrains, Open, DoneBelow;
  }

  /** A client step leaves every target sector alone or gives it its snapshot contents. */
  lemma StepCopiesSnapshot(geo: Geometry, snap: seq<Sector>, c: Client, a: Action, x: nat)
    requires Fits(geo, snap, c) && x < geo.cap
    ensures Step(geo, snap, c, a).target[x] == c.target[x] || Step(geo, snap, c, a).target[x] == snap[x]
  {
  }

  /** A client without an open round can only note a pause. */
  lemma RestingClientStays(geo: Geometry, snap: seq<Sector>, c: Client, a: Action)
    requires Fits(geo, snap, c) && c.thread == NotRunning && !c.begun && Enabled(geo, c, a)
    ensures var d := Step(geo, snap, c, a);
            && d == c.(paused := d.paused, rep := d.rep, rows := d.rows)
            && (d.rep == Completed ==> c.rep == Completed)
  {
  }

  lemma DoKeepsInv(geo: Geometry, s: System, a: Action)
    requires Inv(geo, s) && CanHappen(geo, s, Do(a))
    ensures Inv(geo, Next(geo, s, Do(a)))
  {
    var c := s.client;
    var d := Step(geo, s.snapshot, c, a);
    if c.begun {
      StepKeepsRound(geo, s.snapshot, s.server.sent, c, a);
      forall x: nat | x < geo.cap
        ensures d.target[x] == c.target[x] || d.target[x] == s.snapshot[x]
      {
        StepCopiesSnapshot(geo, s.snapshot, c, a, x);
      }
      OpenOrClosed(geo, s.snapshot, s.server.sent, d);
      assert c.rep != Completed;
    } else {
      RestingClientStays(geo, s.snapshot, c, a);
    }
    hide Open, Closed, Step, PendingGrains, DoneBelow;
  }

  lemma OpenOrClosed(geo: Geometry, snap: seq<Sector>, dirty: set<nat>, d: Client)
    requires Round(geo, snap, dirty, d)
    ensures d.begun ==> Open(geo, snap, dirty, d) && d.loaded && d.bitmap == dirty && d.rep != Completed
    ensures !d.begun ==>
      d.thread == NotRunning && !d.loaded && DoneBelow(geo, snap, dirty, d.target, geo.bits)
  {
  }

  // ---------------------------------------------------------------- the end of a round

  /** When a completed round clears the area it was for, every sector whose mark goes is equal on both
      sides, or marked for the next round, or exposed. */
  lemma ClearedGrainsAreSynced(geo: Geometry, s: System, x: nat)
    requires Inv(geo, s) && s.terminating && x < geo.cap
    requires geo.GrainOf(x) in Resting(s.kernel)
    ensures s.client.target[x] == s.source[x] || geo.GrainOf(x) in Marking(s.kernel) + s.atRisk
  {
    GrainInBitmap(geo, x);
  }

  lemma TerminateKeepsInv(geo: Geometry, s: System)
    requires Inv(geo, s) && s.terminating
    ensures Inv(geo, Next(geo, s, ServerTerminate))
  {
    forall x: nat | x < geo.cap && geo.GrainOf(x) in Resting(s.kernel)
      ensures s.client.target[x] == s.source[x] || geo.GrainOf(x) in Marking(s.kernel) + s.atRisk
    {
      ClearedGrainsAreSynced(geo, s, x);
    }
    hide Open, PendingGrains, DoneBelow;
  }

  lemma {:induction false} EventKeepsInv(geo: Geometry, s: System, e: Event)
    requires Inv(geo, s) && CanHappen(geo, s, e)
    ensures Inv(geo, Next(geo, s, e))
  {
    match e
    case Mark(w) => MarkKeepsInv(geo, s, w);
    case Land(i) => LandKeepsInv(geo, s, i);
    case TakeSnapshot => SnapshotKeepsInv(geo, s);
    case StartCopy => StartCopyKeepsInv(geo, s);
    case CopyWord => CopyWordKeepsInv(geo, s);
    case Flip => FlipKeepsInv(geo, s);
    case Deliver => DeliverKeepsInv(geo, s);
    case BeginRound(mode) => BeginKeepsInv(geo, s, mode);
    case Do(a) => DoKeepsInv(geo, s, a);
    case ServerTerminate => TerminateKeepsInv(geo, s);
    case LoseTerminate =>
      hide Open, PendingGrains, DoneBelow;
  }

  lemma {:induction false} RunKeepsInv(geo: Geometry, s: System, events: seq<Event>)
    requires Inv(geo, s) && Feasible(geo, s, events)
    ensures Inv(geo, Reached(geo, s, events))
  {
    if events != [] {
      var front, e := events[..|events| - 1], events[|events| - 1];
      RunKeepsInv(geo, s, front);
      EventKeepsInv(geo, Reached(geo, s, front), e);
    }
  }
}
