/** What the disks hold: on the source what was written last, on the target what was written before the snapshot. */
module Landed {
  import opened Geometry
  import opened ResyncSteps
  import opened Replication
  import opened Safety
  import opened Guarantees
  import opened Options

  /** The event brings data for sector x to the source disk. */
  function Brings(s: System, e: Event, x: nat): Option<Sector> {
    if e.Land? && e.i < |s.pending| && s.pending[e.i].start <= x < s.pending[e.i].start + |s.pending[e.i].data| then
      Some(s.pending[e.i].data[x - s.pending[e.i].start])
    else None
  }

  /** What the run's last landing over x brought. */
  ghost function LastLanded(geo: Geometry, s: System, events: seq<Event>, x: nat): Option<Sector>
    requires Sized(geo, s)
  {
    if events == [] then None
    else
      var front := events[..|events| - 1];
      match Brings(Reached(geo, s, front), events[|events| - 1], x)
      case Some(v) => Some(v)
      case None => LastLanded(geo, s, front, x)
  }

  lemma EventLands(geo: Geometry, s: System, e: Event, x: nat)
    requires Sized(geo, s) && x < geo.cap
    ensures Next(geo, s, e).source[x] == match Brings(s, e, x) case Some(v) => v case None => s.source[x]
  {
    hide Grains, PendingGrains, Step;
  }

  /** In every run the source holds, in every sector, the data that landed there last, or what it held at the start. */
  lemma {:induction false} SourceIsWhatLandedLast(geo: Geometry, s: System, events: seq<Event>, x: nat)
    requires Sized(geo, s) && x < geo.cap
    ensures Reached(geo, s, events).source[x] ==
            match LastLanded(geo, s, events, x) case Some(v) => v case None => s.source[x]
  {
    hide Next, Brings;
    if events != [] {
      var front := events[..|events| - 1];
      SourceIsWhatLandedLast(geo, s, front, x);
      EventLands(geo, Reached(geo, s, front), events[|events| - 1], x);
    }
  }

  function Marked(e: Event): multiset<Write> {
    match e
    case Mark(w) => multiset{w}
    case _ => multiset{}
  }

  function Landing(s: System, e: Event): multiset<Write> {
    if e.Land? && e.i < |s.pending| then multiset{s.pending[e.i]} else multiset{}
  }

  function MarkedIn(events: seq<Event>): multiset<Write> {
    if events == [] then multiset{} else MarkedIn(events[..|events| - 1]) + Marked(events[|events| - 1])
  }

  ghost function LandedIn(geo: Geometry, s: System, events: seq<Event>): multiset<Write>
    requires Sized(geo, s)
  {
    if events == [] then multiset{}
    else
      var front := events[..|events| - 1];
      LandedIn(geo, s, front) + Landing(Reached(geo, s, front), events[|events| - 1])
  }

  lemma EventKeepsWrites(geo: Geometry, s: System, e: Event)
    requires Sized(geo, s)
    ensures multiset(Next(geo, s, e).pending) + Landing(s, e) == multiset(s.pending) + Marked(e)
  {
    if e.Land? && e.i < |s.pending| {
      assert s.pending == s.pending[..e.i] + [s.pending[e.i]] + s.pending[e.i + 1..];
    }
    hide Grains, PendingGrains, Step, Apply;
  }

  lemma Regroup(m: multiset<Write>, dm: multiset<Write>, l: multiset<Write>, dl: multiset<Write>, p: multiset<Write>,
                q: multiset<Write>)
    requires m == l + p && q + dl == p + dm
    ensures m + dm == (l + dl) + q
  {
    forall w: Write
      ensures (m + dm)[w] == ((l + dl) + q)[w]
    {
      assert (q + dl)[w] == (p + dm)[w];
    }
  }

  /** Writes are neither lost nor made up on their way: those marked are those that have landed and those still
      to land. */
  lemma {:induction false} WritesAreConserved(geo: Geometry, s: System, events: seq<Event>)
    requires Sized(geo, s) && s.pending == []
    ensures MarkedIn(events) == LandedIn(geo, s, events) + multiset(Reached(geo, s, events).pending)
  {
    hide Next, Marked, Landing;
    if events != [] {
      var front, e := events[..|events| - 1], events[|events| - 1];
      var t := Reached(geo, s, front);
      WritesAreConserved(geo, s, front);
      EventKeepsWrites(geo, t, e);
      var u := Next(geo, t, e);
      assert MarkedIn(events) == MarkedIn(front) + Marked(e);
      assert LandedIn(geo, s, events) == LandedIn(geo, s, front) + Landing(t, e);
      assert multiset(u.pending) + Landing(t, e) == multiset(t.pending) + Marked(e);
      assert u == Reached(geo, s, events);
      Regroup(MarkedIn(front), Marked(e), LandedIn(geo, s, front), Landing(t, e), multiset(t.pending), multiset(u.pending));
    } else {
      assert multiset(s.pending) == multiset{};
    }
  }

  ghost predicate NoSnapshot(events: seq<Event>) {
    forall i :: 0 <= i < |events| ==> !events[i].TakeSnapshot?
  }

  lemma {:induction false} SnapshotStays(geo: Geometry, s: System, before: seq<Event>, rest: seq<Event>)
    requires Sized(geo, s) && NoSnapshot(rest)
    ensures Reached(geo, s, before + rest).snapshot == Reached(geo, s, before).snapshot
  {
    hide Reached, Next;
    if rest == [] {
      assert before + rest == before;
    } else {
      var front, e := rest[..|rest| - 1], rest[|rest| - 1];
      SnapshotStays(geo, s, before, front);
      assert before + rest == (before + front) + [e];
      ReachedSnoc(geo, s, before + front, e);
      EventKeepsSnapshot(geo, Reached(geo, s, before + front), e);
    }
  }

  lemma EventKeepsSnapshot(geo: Geometry, s: System, e: Event)
    requires Sized(geo, s) && !e.TakeSnapshot?
    ensures Next(geo, s, e).snapshot == s.snapshot
  {
    hide Grains, PendingGrains, Step, Apply;
  }

  /** When a round of an orderly, quiet run is finished, the target holds in every sector the data that landed there
      last before the round's snapshot was taken. */
  lemma {:induction false} TargetIsWhatLandedBefore(geo: Geometry, s: System, before: seq<Event>, rest: seq<Event>, x: nat)
    requires Initial(geo, s) && x < geo.cap && NoSnapshot(rest)
    requires var events := before + [TakeSnapshot] + rest;
             && Feasible(geo, s, events) && QuietRun(geo, s, events) && OrderlyRun(geo, s, events)
             && RoundDone(Reached(geo, s, events))
    ensures Reached(geo, s, before + [TakeSnapshot] + rest).client.target[x] ==
            match LastLanded(geo, s, before, x) case Some(v) => v case None => s.source[x]
  {
    InitialIsSized(geo, s);
    hide Feasible, QuietRun, OrderlyRun, Initial, Reached;
    EveryRoundIsPointInTime(geo, s, before + [TakeSnapshot] + rest);
    SnapshotStays(geo, s, before + [TakeSnapshot], rest);
    ReachedSnoc(geo, s, before, TakeSnapshot);
    SourceIsWhatLandedLast(geo, s, before, x);
  }
}
