/** What the replicator promises over whole runs. */
module Guarantees {
  import opened Geometry
  import opened ResyncSteps
  import opened Coverage
  import opened Progress
  import opened Resume
  import opened Replication
  import opened Safety
  import FullResync

  // ---------------------------------------------------------------- no lost update

  /** In every state of every run, wherever target and source differ the grain is marked in one of the
      two areas, or it was written by a request marked before a FLIP that reached the disk after that
      round's snapshot, and no write has marked it since. */
  lemma {:induction false} NoUpdateLost(geo: Geometry, s: System, events: seq<Event>, x: nat)
    requires Initial(geo, s) && Feasible(geo, s, events) && x < geo.cap
    ensures var t := Reached(geo, s, events);
            t.client.target[x] != t.source[x] ==>
              geo.GrainOf(x) in t.kernel.low || geo.GrainOf(x) in t.kernel.high || geo.GrainOf(x) in t.atRisk
  {
    InitialInv(geo, s);
    RunKeepsInv(geo, s, events);
  }

  /** No write lands between snapshot and FLIP, and none is on its way at a FLIP: equivalently, every
      write marked before a FLIP had landed before the snapshot. */
  ghost predicate QuietEvent(s: System, e: Event) {
    && (e.Land? && e.i < |s.pending| ==> !BeforeFlip(s.server.phase))
    && (e.Flip? ==> s.pending == [])
  }

  ghost predicate QuietRun(geo: Geometry, s: System, events: seq<Event>)
    requires Sized(geo, s)
  {
    events == [] ||
    var front := events[..|events| - 1];
    QuietRun(geo, s, front) && QuietEvent(Reached(geo, s, front), events[|events| - 1])
  }

  lemma WriteMarksSomething(geo: Geometry, w: Write)
    requires geo.Valid()
    ensures Grains(geo, w) != {}
  {
    DivMono(w.start, w.start + |w.data|, geo.grain);
    assert geo.FindPos(w.start) in Grains(geo, w);
  }

  lemma QuietEventExposesNothing(geo: Geometry, s: System, e: Event)
    requires Sized(geo, s) && s.exposed == {}
    ensures Next(geo, s, e).exposed == {} <==> QuietEvent(s, e)
  {
    if e.Land? && e.i < |s.pending| {
      WriteMarksSomething(geo, s.pending[e.i]);
    }
    if e.Flip? && s.pending != [] {
      WriteMarksSomething(geo, s.pending[0]);
      var g :| g in Grains(geo, s.pending[0]);
      assert Waiting(geo, s.pending, g);
      assert g in PendingGrains(geo, s.pending);
    }
  }

  lemma {:induction false} ExposureStays(geo: Geometry, s: System, events: seq<Event>)
    requires Sized(geo, s)
    ensures s.exposed <= Reached(geo, s, events).exposed
  {
    hide Next;
    if events != [] {
      ExposureStays(geo, s, events[..|events| - 1]);
      EventKeepsExposure(geo, Reached(geo, s, events[..|events| - 1]), events[|events| - 1]);
    }
  }

  lemma EventKeepsExposure(geo: Geometry, s: System, e: Event)
    requires Sized(geo, s)
    ensures s.exposed <= Next(geo, s, e).exposed
  {
    hide PendingGrains, Grains, Step;
  }

  /** Writes are exposed exactly by the runs that are not quiet. */
  lemma {:induction false} ExposedIffNotQuiet(geo: Geometry, s: System, events: seq<Event>)
    requires Sized(geo, s) && s.exposed == {}
    ensures Reached(geo, s, events).exposed == {} <==> QuietRun(geo, s, events)
  {
    hide Next, QuietEvent;
    if events != [] {
      var front, e := events[..|events| - 1], events[|events| - 1];
      var t := Reached(geo, s, front);
      ExposedIffNotQuiet(geo, s, front);
      if t.exposed == {} {
        QuietEventExposesNothing(geo, t, e);
      } else {
        EventKeepsExposure(geo, t, e);
      }
    }
  }

  /** So in a quiet run no update is ever forgotten. */
  lemma {:induction false} QuietRunsLoseNothing(geo: Geometry, s: System, events: seq<Event>, x: nat)
    requires Initial(geo, s) && Feasible(geo, s, events) && QuietRun(geo, s, events) && x < geo.cap
    ensures var t := Reached(geo, s, events);
            t.client.target[x] != t.source[x] ==>
              geo.GrainOf(x) in t.kernel.low || geo.GrainOf(x) in t.kernel.high
  {
    NoUpdateLost(geo, s, events, x);
    ExposedIffNotQuiet(geo, s, events);
    InitialInv(geo, s);
    RunKeepsInv(geo, s, events);
  }

  lemma QuietEventRisksNothing(geo: Geometry, s: System, e: Event)
    requires Sized(geo, s) && QuietEvent(s, e)
    ensures Next(geo, s, e).atRisk <= s.atRisk
  {
    assert PendingGrains(geo, []) == {};
    hide Grains, Step, Apply;
  }

  lemma {:induction false} QuietRunRisksNothing(geo: Geometry, s: System, events: seq<Event>)
    requires Sized(geo, s) && QuietRun(geo, s, events)
    ensures Reached(geo, s, events).atRisk <= s.atRisk
  {
    hide Next, QuietEvent;
    if events != [] {
      QuietRunRisksNothing(geo, s, events[..|events| - 1]);
      QuietEventRisksNothing(geo, Reached(geo, s, events[..|events| - 1]), events[|events| - 1]);
    }
  }

  lemma {:induction false} RunsJoin(geo: Geometry, s: System, first: seq<Event>, second: seq<Event>)
    requires Sized(geo, s)
    ensures Reached(geo, s, first + second) == Reached(geo, Reached(geo, s, first), second)
  {
    hide Next, Reached;
    var t := Reached(geo, s, first);
    if second == [] {
      assert first + second == first;
      NoEvents(geo, t);
    } else {
      var front, e := second[..|second| - 1], second[|second| - 1];
      RunsJoin(geo, s, first, front);
      assert first + second == first + front + [e] && second == front + [e];
      ReachedSnoc(geo, s, first + front, e);
      ReachedSnoc(geo, t, front, e);
    }
  }

  /** Whatever was exposed before, a grain that is marked again is safe for as long as no other write is exposed:
      where its sectors differ it has a mark. */
  lemma {:induction false} MarkedAgainIsSafe(geo: Geometry, s: System, before: seq<Event>, w: Write, rest: seq<Event>, x: nat)
    requires Initial(geo, s) && Feasible(geo, s, before + [Mark(w)] + rest) && x < geo.cap
    requires QuietRun(geo, Reached(geo, s, before + [Mark(w)]), rest) && geo.GrainOf(x) in Grains(geo, w)
    ensures var t := Reached(geo, s, before + [Mark(w)] + rest);
            t.client.target[x] != t.source[x] ==> geo.GrainOf(x) in t.kernel.low || geo.GrainOf(x) in t.kernel.high
  {
    InitialIsSized(geo, s);
    hide Initial, Feasible, Reached, QuietRun, Grains;
    NoUpdateLost(geo, s, before + [Mark(w)] + rest, x);
    ReachedSnoc(geo, s, before, Mark(w));
    RunsJoin(geo, s, before + [Mark(w)], rest);
    QuietRunRisksNothing(geo, Reached(geo, s, before + [Mark(w)]), rest);
  }

  // ---------------------------------------------------------------- point-in-time copies

  /** The client has finished the round the server is serving. */
  ghost predicate RoundDone(s: System) {
    s.server.phase == Serving && !s.client.loaded
  }

  /** If the area flipped to was empty, a finished round has made the whole target the snapshot. */
  lemma {:induction false} PointInTimeCopy(geo: Geometry, s: System, events: seq<Event>)
    requires Initial(geo, s) && Feasible(geo, s, events) && QuietRun(geo, s, events)
    requires RoundDone(Reached(geo, s, events)) && Reached(geo, s, events).cleanFlip
    ensures Reached(geo, s, events).client.target == Reached(geo, s, events).snapshot
  {
    var t := Reached(geo, s, events);
    InitialInv(geo, s);
    RunKeepsInv(geo, s, events);
    ExposedIffNotQuiet(geo, s, events);
    forall x: nat | x < geo.cap
      ensures t.client.target[x] == t.snapshot[x]
    {
      GrainInBitmap(geo, x);
    }
  }

  /** A new snapshot is taken only when the server has closed the round before. */
  ghost predicate OrderlyRun(geo: Geometry, s: System, events: seq<Event>)
    requires Sized(geo, s)
  {
    events == [] ||
    var front := events[..|events| - 1];
    && OrderlyRun(geo, s, front)
    && (events[|events| - 1].TakeSnapshot? ==> Reached(geo, s, front).server.phase !in {Sending, Serving})
  }

  lemma {:induction false} OrderlyRunsRest(geo: Geometry, s: System, events: seq<Event>)
    requires Sized(geo, s) && s.server.phase == NoRound && Feasible(geo, s, events) && OrderlyRun(geo, s, events)
    ensures var t := Reached(geo, s, events); t.server.phase == NoRound || t.rested
  {
    hide Next, CanHappen;
    if events != [] {
      OrderlyRunsRest(geo, s, events[..|events| - 1]);
      EventRests(geo, Reached(geo, s, events[..|events| - 1]), events[|events| - 1]);
    }
  }

  lemma EventRests(geo: Geometry, s: System, e: Event)
    requires Sized(geo, s) && CanHappen(geo, s, e) && (s.server.phase == NoRound || s.rested)
    requires e.TakeSnapshot? ==> s.server.phase !in {Sending, Serving}
    ensures var t := Next(geo, s, e); t.server.phase == NoRound || t.rested
  {
    hide PendingGrains, Grains, Step;
  }

  /** Over a run whose requests follow one another, every termination re-establishes the empty area, so
      every finished round is a point-in-time copy. */
  lemma {:induction false} EveryRoundIsPointInTime(geo: Geometry, s: System, events: seq<Event>)
    requires Initial(geo, s) && Feasible(geo, s, events)
    requires QuietRun(geo, s, events) && OrderlyRun(geo, s, events)
    requires RoundDone(Reached(geo, s, events))
    ensures Reached(geo, s, events).client.target == Reached(geo, s, events).snapshot
  {
    InitialInv(geo, s);
    RunKeepsInv(geo, s, events);
    OrderlyRunsRest(geo, s, events);
    PointInTimeCopy(geo, s, events);
  }

  // ---------------------------------------------------------------- marks

  /** A mark leaves an area only when the server clears the area it handed out; every mark that goes was
      in the bitmap sent for that round, unless a write was exposed. */
  lemma {:induction false} MarksAreConserved(geo: Geometry, s: System, events: seq<Event>, e: Event, g: nat)
    requires Initial(geo, s) && Feasible(geo, s, events + [e])
    requires var t := Reached(geo, s, events); var u := Reached(geo, s, events + [e]);
             (g in t.kernel.low && g !in u.kernel.low) || (g in t.kernel.high && g !in u.kernel.high)
    ensures e == ServerTerminate
    ensures g in Reached(geo, s, events).server.sent || g in Reached(geo, s, events).exposed
    ensures var t := Reached(geo, s, events); QuietRun(geo, s, events) ==> g in t.server.sent
    ensures forall x: nat :: x < geo.cap && geo.GrainOf(x) == g ==>
              var t := Reached(geo, s, events);
              g in Marking(t.kernel) || g in t.atRisk || t.client.target[x] == t.source[x]
  {
    assert (events + [e])[..|events|] == events;
    var t := Reached(geo, s, events);
    InitialInv(geo, s);
    RunKeepsInv(geo, s, events);
    ExposedIffNotQuiet(geo, s, events);
    assert t.terminating;
    forall x: nat | x < geo.cap && geo.GrainOf(x) == g
      ensures g in Marking(t.kernel) || g in t.atRisk || t.client.target[x] == t.source[x]
    {
      if g in Resting(t.kernel) {
        ClearedGrainsAreSynced(geo, t, x);
      }
    }
  }

  /** In every reachable state KERNEL means the base area and USER the other; while a request is open past
      its FLIP the server and the kernel agree on the user, so clearing never touches the area being
      marked; and until then nothing but that clearing changes the area handed out. */
  lemma {:induction false} FlipAndClearAreSafe(geo: Geometry, s: System, events: seq<Event>, e: Event)
    requires Initial(geo, s) && Feasible(geo, s, events + [e])
    ensures var k := Reached(geo, s, events).kernel;
            (k.user == KERNEL <==> k.area == 0) && (k.user == USER <==> k.area == k.size) && k.size > 0
    ensures var t := Reached(geo, s, events);
            t.server.phase in {Sending, Serving} ==> t.server.user == t.kernel.user
    ensures e == ServerTerminate ==>
              var t := Reached(geo, s, events); var u := Reached(geo, s, events + [e]);
              && Marking(u.kernel) == Marking(t.kernel) && u.kernel.area == t.kernel.area
              && Resting(u.kernel) == {}
    ensures var t := Reached(geo, s, events); var u := Reached(geo, s, events + [e]);
            t.server.phase in {Sending, Serving} && e != ServerTerminate ==> Resting(u.kernel) == Resting(t.kernel)
    ensures var t := Reached(geo, s, events);
            t.server.phase in {Sending, Serving} && QuietRun(geo, s, events) ==> Resting(t.kernel) == t.server.sent
  {
    assert (events + [e])[..|events|] == events;
    InitialInv(geo, s);
    RunKeepsInv(geo, s, events);
    ExposedIffNotQuiet(geo, s, events);
  }

  /** A termination that is lost leaves all marks, of both areas, and the next request can begin. */
  lemma {:induction false} LostTermination(geo: Geometry, s: System, events: seq<Event>)
    requires Initial(geo, s) && Feasible(geo, s, events) && Reached(geo, s, events).terminating
    ensures Feasible(geo, s, events + [LoseTerminate])
    ensures var t := Reached(geo, s, events); var u := Reached(geo, s, events + [LoseTerminate]);
            && u == t.(terminating := false)
            && (t.client.last == 0 ==> Feasible(geo, s, events + [LoseTerminate] + [TakeSnapshot]))
  {
    InitialInv(geo, s);
    RunKeepsInv(geo, s, events);
    var t := Reached(geo, s, events);
    assert t.client.thread == NotRunning;
    hide Feasible, Reached, Inv;
    var u := Extend(geo, s, events, LoseTerminate);
    if t.client.last == 0 {
      u := Extend(geo, s, events + [LoseTerminate], TakeSnapshot);
    }
  }

  /** The first termination clears what there is to clear; one that comes again, whatever has been marked in
      between, changes nothing. */
  lemma {:induction false} TerminatedOnce(geo: Geometry, s: System, k: Kernel)
    requires Sized(geo, s) && KernelGood(geo, s.kernel) && !s.server.released && s.server.user == s.kernel.user
    ensures var t := Next(geo, s, ServerTerminate);
            && Resting(t.kernel) == {} && Marking(t.kernel) == Marking(s.kernel)
            && Next(geo, t.(kernel := k, terminating := true), ServerTerminate) == t.(kernel := k)
  {
  }

  // ---------------------------------------------------------------- why a run must be quiet

  /** One more event. */
  lemma Extend(geo: Geometry, s: System, events: seq<Event>, e: Event) returns (t: System)
    requires Sized(geo, s) && Feasible(geo, s, events) && CanHappen(geo, Reached(geo, s, events), e)
    ensures Feasible(geo, s, events + [e])
    ensures t == Reached(geo, s, events + [e]) == Next(geo, Reached(geo, s, events), e)
  {
    assert (events + [e])[..|events|] == events;
    t := Reached(geo, s, events + [e]);
  }

  lemma NoEvents(geo: Geometry, s: System)
    requires Sized(geo, s)
    ensures Feasible(geo, s, []) && Reached(geo, s, []) == s
  {
  }

  /** A run of the client, as events of the system. */
  function Lift(actions: seq<Action>): (events: seq<Event>)
    ensures |events| == |actions|
    ensures forall i :: 0 <= i < |events| ==> events[i] == Do(actions[i])
  {
    seq(|actions|, i requires 0 <= i < |actions| => Do(actions[i]))
  }

  lemma LiftStep(geo: Geometry, t: System, a: Action)
    requires Sized(geo, t) && t.server.phase == Serving && Enabled(geo, t.client, a)
    ensures var d := Step(geo, t.snapshot, t.client, a);
            && CanHappen(geo, t, Do(a))
            && Next(geo, t, Do(a)) ==
                 t.(client := d, terminating := t.terminating || (t.client.rep != Completed && d.rep == Completed))
  {
  }

  /** While the server serves, the system can do what its client can. */
  lemma {:induction false} LiftedRun(geo: Geometry, s: System, before: seq<Event>, actions: seq<Action>)
    requires Sized(geo, s) && Feasible(geo, s, before) && Reached(geo, s, before).server.phase == Serving
    requires Possible(geo, Reached(geo, s, before).snapshot, Reached(geo, s, before).client, actions)
    ensures Feasible(geo, s, before + Lift(actions))
    ensures var t := Reached(geo, s, before); var u := Reached(geo, s, before + Lift(actions));
            && u == t.(client := After(geo, t.snapshot, t.client, actions), terminating := u.terminating)
            && (t.client.rep != Completed && u.client.rep == Completed ==> u.terminating)
  {
    hide Feasible, Reached, Possible, After, Step, Enabled, Next;
    var t := Reached(geo, s, before);
    if actions == [] {
      EmptyRun(geo, t.snapshot, t.client);
      assert before + Lift(actions) == before;
    } else {
      var front, a := actions[..|actions| - 1], actions[|actions| - 1];
      LastStep(geo, t.snapshot, t.client, actions);
      LiftedRun(geo, s, before, front);
      var u := Reached(geo, s, before + Lift(front));
      LiftStep(geo, u, a);
      var v := Extend(geo, s, before + Lift(front), Do(a));
      assert before + Lift(front) + [Do(a)] == before + Lift(actions);
    }
  }

  /** A full round that runs to its end without a restart makes the whole target the snapshot, whatever was marked. */
  lemma {:induction false} FullRoundCopiesAll(geo: Geometry, s: System, before: seq<Event>, actions: seq<Action>)
    requires Initial(geo, s) && Feasible(geo, s, before + [BeginRound(FULL_RESYNC)])
    requires var t := Reached(geo, s, before + [BeginRound(FULL_RESYNC)]);
             && Possible(geo, t.snapshot, t.client, actions)
             && (forall i :: 0 <= i < |actions| ==> !FullResync.Restarts(actions[i]))
             && After(geo, t.snapshot, t.client, actions).rep == Completed
    ensures var events := before + [BeginRound(FULL_RESYNC)] + Lift(actions);
            Feasible(geo, s, events) && Reached(geo, s, events).client.target == Reached(geo, s, events).snapshot
  {
    var start := before + [BeginRound(FULL_RESYNC)];
    assert start[..|before|] == before;
    var m, t := Reached(geo, s, before), Reached(geo, s, start);
    InitialInv(geo, s);
    RunKeepsInv(geo, s, before);
    assert t.client == Begin(m.client, FULL_RESYNC) && t.server.phase == Serving && t.snapshot == m.snapshot;
    assert Ready(geo, m.client);
    hide Feasible, Reached, Possible, After, Inv;
    LiftedRun(geo, s, start, actions);
    FullResync.FullResyncCopiesAll(geo, t.snapshot, m.client, actions);
  }

  ghost predicate NoWrites(events: seq<Event>) {
    forall i :: 0 <= i < |events| ==> !events[i].Mark?
  }

  /** Target and source differ in sector x, and no mark is left. */
  ghost predicate Forgotten(geo: Geometry, s: System, x: nat)
    requires Sized(geo, s) && x < geo.cap
  {
    s.source[x] != s.client.target[x] && s.kernel.low == {} && s.kernel.high == {}
  }

  /** A round whose snapshot lacks a write, and whose bitmap is on its way. */
  ghost predicate Missing(geo: Geometry, s: System, x: nat)
    requires Sized(geo, s) && x < geo.cap
  {
    && s.server.phase == Sending && s.server.user == USER && !s.server.released
    && s.kernel.high == {}
    && s.source[x] != s.client.target[x] && s.client.target[x] == s.snapshot[x]
    && ClientAtRest(s.client) && !s.client.begun
    && forall g :: g in s.server.sent ==> g < geo.bits
  }

  /** Its bitmap is delivered and its resync begins. */
  lemma OpenRound(geo: Geometry, s: System, x: nat)
    requires Sized(geo, s) && x < geo.cap && Missing(geo, s, x)
    ensures CanHappen(geo, s, Deliver)
    ensures var t := Next(geo, s, Deliver);
            && CanHappen(geo, t, BeginRound(NO_RESYNC))
            && var u := Next(geo, t, BeginRound(NO_RESYNC));
               && u == s.(client := u.client, server := s.server.(phase := Serving))
               && u.client.target == s.client.target && u.client.rep == InProgress
               && Open(geo, s.snapshot, s.server.sent, u.client)
  {
    hide FirstWordMarked;
    BeginOpens(geo, s.snapshot, LoadBitmap(s.client, s.server.sent), NO_RESYNC);
  }

  /** Its termination clears the mark. */
  lemma CloseRound(geo: Geometry, s: System, u: System, x: nat)
    requires Sized(geo, s) && Sized(geo, u) && x < geo.cap && Missing(geo, s, x)
    requires u == s.(client := u.client, server := s.server.(phase := Serving), terminating := true)
    requires u.client.target[x] == s.snapshot[x]
    ensures CanHappen(geo, u, ServerTerminate)
    ensures var v := Next(geo, u, ServerTerminate);
            Forgotten(geo, v, x) && v.source == s.source && v.client.target == u.client.target
  {
  }

  /** Such a round runs to its end and clears the mark. */
  lemma FinishRound(geo: Geometry, s: System, x: nat, before: seq<Event>) returns (rest: seq<Event>)
    requires Sized(geo, s) && Feasible(geo, s, before) && x < geo.cap && Missing(geo, Reached(geo, s, before), x)
    ensures NoWrites(rest)
    ensures Feasible(geo, s, before + rest) && Forgotten(geo, Reached(geo, s, before + rest), x)
    ensures var t := Reached(geo, s, before); var u := Reached(geo, s, before + rest);
            u.source == t.source && u.client.target[x] == t.client.target[x]
  {
    hide Feasible, Reached, Possible, After, Next, CanHappen, Open, Forgotten, CountInterrupts;
    var m := Reached(geo, s, before);
    OpenRound(geo, m, x);
    var t := Extend(geo, s, before, Deliver);
    t := Extend(geo, s, before + [Deliver], BeginRound(NO_RESYNC));
    var start := before + [Deliver] + [BeginRound(NO_RESYNC)];
    var actions := RoundCompletes(geo, t.snapshot, m.server.sent, t.client);
    TargetIsWhatWasWritten(geo, t.snapshot, t.client, actions, x);
    LiftedRun(geo, s, start, actions);
    CloseRound(geo, m, Reached(geo, s, start + Lift(actions)), x);
    var u := Extend(geo, s, start + Lift(actions), ServerTerminate);
    rest := [Deliver] + [BeginRound(NO_RESYNC)] + Lift(actions) + [ServerTerminate];
    assert before + rest == start + Lift(actions) + [ServerTerminate];
  }

  // ---------------------------------------------------------------- one write and one request

  /** 64-bit words of the bitmap. */
  function WordCount(geo: Geometry): nat { (geo.bits + 63) / 64 }

  /** The moments of a request: 0 before the snapshot, 1 after it, 2 after GET_USER, one after each word of
      the bitmap is copied, and the last after the FLIP.  A write is marked at one of them and lands at the
      same or a later one. */
  function LastMoment(geo: Geometry): nat { 3 + WordCount(geo) }

  function RequestEvent(geo: Geometry, p: nat): seq<Event> {
    if p == 0 then [] else if p == 1 then [TakeSnapshot] else if p == 2 then [StartCopy]
    else if p < LastMoment(geo) then [CopyWord] else [Flip]
  }

  function WriteAt(w: Write, p: nat, marked: nat, landed: nat): seq<Event> {
    (if marked == p then [Mark(w)] else []) + (if landed == p then [Land(0)] else [])
  }

  function Schedule(geo: Geometry, w: Write, p: nat, marked: nat, landed: nat): seq<Event> {
    (if p == 0 then [] else Schedule(geo, w, p - 1, marked, landed))
    + RequestEvent(geo, p) + WriteAt(w, p, marked, landed)
  }

  /** The copy has seen this mark by moment p. */
  predicate SeenByCopy(geo: Geometry, p: nat, marked: nat, g: nat) {
    marked <= 2 + g / 64 && g / 64 < p - 2 && g / 64 < WordCount(geo)
  }

  function SentAt(geo: Geometry, w: Write, p: nat, marked: nat): set<nat>
    requires geo.grain > 0 && geo.bits > 0
  {
    set g | g in Grains(geo, w) && SeenByCopy(geo, p, marked, g)
  }

  function PhaseAt(geo: Geometry, p: nat): Phase {
    if p == 0 then NoRound else if p == 1 then Snapped
    else if p < 2 + WordCount(geo) then Copying(p - 2)
    else if p == 2 + WordCount(geo) then Loaded else Sending
  }

  /** The state at moment p of that schedule, from s; `m` and `l` say whether the write is marked and landed
      yet. */
  function StateAt(geo: Geometry, s: System, w: Write, p: nat, marked: nat, landed: nat, m: bool, l: bool): System
    requires geo.grain > 0 && geo.bits > 0
  {
    var last := LastMoment(geo);
    var g := Grains(geo, w);
    var late := if (1 <= landed < last && l) || (p == last && marked < last && landed == last) then g else {};
    s.(source := if l then Apply(s.source, w) else s.source,
       snapshot := if p == 0 then s.snapshot else if landed == 0 then Apply(s.source, w) else s.source,
       kernel := Kernel(if m && marked < last then g else {}, if m && marked == last then g else {},
                        if p == last then s.kernel.size else 0, s.kernel.size, if p == last then USER else KERNEL),
       server := if p <= 1 then s.server.(phase := PhaseAt(geo, p))
                 else Server(PhaseAt(geo, p), USER, SentAt(geo, w, p, marked), false),
       pending := if m && !l then [w] else [],
       exposed := late, atRisk := late,
       cleanFlip := if p == last then true else s.cleanFlip,
       rested := if p == 0 then s.rested else true)
  }

  function Scheduled(geo: Geometry, s: System, w: Write, p: nat, marked: nat, landed: nat): System
    requires geo.grain > 0 && geo.bits > 0
  {
    StateAt(geo, s, w, p, marked, landed, marked <= p, landed <= p)
  }

  lemma OnlyPending(geo: Geometry, w: Write)
    requires geo.Valid()
    ensures PendingGrains(geo, [w]) == Grains(geo, w) && PendingGrains(geo, []) == {}
  {
    assert [w][0] == w;
    forall g: nat | g in Grains(geo, w)
      ensures g < geo.bits && Waiting(geo, [w], g)
    {
    }
  }

  lemma WordsCover(geo: Geometry, n: nat)
    requires geo.Valid()
    ensures n * 64 < geo.bits <==> n < WordCount(geo)
  {
  }

  /** Copying one more word adds its marks, if the write was marked by then. */
  lemma OneMoreWord(geo: Geometry, w: Write, p: nat, marked: nat)
    requires geo.Valid() && 3 <= p < LastMoment(geo)
    ensures SentAt(geo, w, p, marked) ==
            SentAt(geo, w, p - 1, marked) + WordMarks(if marked < p then Grains(geo, w) else {}, p - 3)
  {
    hide Grains;
  }

  lemma AllWordsSent(geo: Geometry, w: Write, p: nat, marked: nat)
    requires geo.Valid() && p == LastMoment(geo)
    ensures SentAt(geo, w, p, marked) == SentAt(geo, w, p - 1, marked)
  {
    hide Grains;
    forall g | g in Grains(geo, w)
      ensures SeenByCopy(geo, p, marked, g) == SeenByCopy(geo, p - 1, marked, g)
    {
    }
  }

  lemma NoneSentYet(geo: Geometry, w: Write, marked: nat)
    requires geo.Valid()
    ensures SentAt(geo, w, 2, marked) == {}
  {
  }

  /** One event of the request leads from one moment to the next. */
  ghost predicate Moves(geo: Geometry, s: System, w: Write, p: nat, marked: nat, landed: nat, e: Event)
    requires geo.grain > 0 && geo.bits > 0 && p > 0
  {
    var t := Scheduled(geo, s, w, p - 1, marked, landed);
    && Sized(geo, t) && CanHappen(geo, t, e)
    && Next(geo, t, e) == StateAt(geo, s, w, p, marked, landed, marked < p, landed < p)
  }

  lemma SnapshotMoves(geo: Geometry, s: System, w: Write, marked: nat, landed: nat)
    requires Initial(geo, s) && marked <= landed <= LastMoment(geo)
    ensures Moves(geo, s, w, 1, marked, landed, TakeSnapshot)
  {
    WordsCover(geo, 0);
    hide Grains, SentAt, Apply, WordCount;
  }

  lemma StartMoves(geo: Geometry, s: System, w: Write, marked: nat, landed: nat)
    requires Initial(geo, s) && marked <= landed <= LastMoment(geo)
    ensures Moves(geo, s, w, 2, marked, landed, StartCopy)
  {
    NoneSentYet(geo, w, marked);
    WordsCover(geo, 0);
    hide Grains, SentAt, Apply, WordCount;
  }

  lemma WordMoves(geo: Geometry, s: System, w: Write, p: nat, marked: nat, landed: nat)
    requires Initial(geo, s) && marked <= landed <= LastMoment(geo) && 3 <= p < LastMoment(geo)
    ensures Moves(geo, s, w, p, marked, landed, CopyWord)
  {
    WordsCover(geo, p - 2);
    OneMoreWord(geo, w, p, marked);
    hide Grains, SentAt, WordMarks, Apply, WordCount;
  }

  lemma FlipMoves(geo: Geometry, s: System, w: Write, marked: nat, landed: nat)
    requires Initial(geo, s) && marked <= landed <= LastMoment(geo)
    ensures Moves(geo, s, w, LastMoment(geo), marked, landed, Flip)
  {
    OnlyPending(geo, w);
    WordsCover(geo, 0);
    AllWordsSent(geo, w, LastMoment(geo), marked);
    hide Grains, PendingGrains, SentAt, Apply, WordCount;
  }

  lemma RequestMoves(geo: Geometry, s: System, w: Write, p: nat, marked: nat, landed: nat)
    requires Initial(geo, s) && 1 <= p <= LastMoment(geo) && marked <= landed <= LastMoment(geo)
    ensures Moves(geo, s, w, p, marked, landed, RequestEvent(geo, p)[0])
  {
    hide Moves, Initial;
    if p == 1 {
      SnapshotMoves(geo, s, w, marked, landed);
    } else if p == 2 {
      StartMoves(geo, s, w, marked, landed);
    } else if p < LastMoment(geo) {
      WordMoves(geo, s, w, p, marked, landed);
    } else {
      FlipMoves(geo, s, w, marked, landed);
    }
  }

  lemma WriteMoves(geo: Geometry, s: System, w: Write, p: nat, marked: nat, landed: nat)
    requires Initial(geo, s) && p <= LastMoment(geo) && marked <= landed <= LastMoment(geo)
    ensures marked == p ==>
              var t := StateAt(geo, s, w, p, marked, landed, false, false);
              Sized(geo, t) && Next(geo, t, Mark(w)) == StateAt(geo, s, w, p, marked, landed, true, false)
    ensures landed == p ==>
              var t := StateAt(geo, s, w, p, marked, landed, true, false);
              && Sized(geo, t) && CanHappen(geo, t, Land(0))
              && Next(geo, t, Land(0)) == StateAt(geo, s, w, p, marked, landed, true, true)
  {
    hide Grains, Apply, SentAt, WordCount;
  }

  lemma ScheduleStarts(geo: Geometry, s: System, w: Write, marked: nat, landed: nat)
    requires Initial(geo, s)
    ensures s == StateAt(geo, s, w, 0, marked, landed, false, false)
  {
  }

  lemma ScheduleStep(geo: Geometry, s: System, w: Write, p: nat, marked: nat, landed: nat, before: seq<Event>)
    requires Initial(geo, s) && p <= LastMoment(geo) && marked <= landed <= LastMoment(geo)
    requires Feasible(geo, s, before)
    requires p == 0 ==> before == []
    requires p > 0 ==> Reached(geo, s, before) == Scheduled(geo, s, w, p - 1, marked, landed)
    ensures var events := before + RequestEvent(geo, p) + WriteAt(w, p, marked, landed);
            Feasible(geo, s, events) && Reached(geo, s, events) == Scheduled(geo, s, w, p, marked, landed)
  {
    hide Feasible, Reached, StateAt, Next, Initial, LastMoment;
    InitialIsSized(geo, s);
    ScheduleStarts(geo, s, w, marked, landed);
    NoEvents(geo, s);
    WriteMoves(geo, s, w, p, marked, landed);
    var events := before;
    var t := Reached(geo, s, before);
    if p > 0 {
      RequestMoves(geo, s, w, p, marked, landed);
      t := Extend(geo, s, events, RequestEvent(geo, p)[0]);
      events := events + [RequestEvent(geo, p)[0]];
    }
    assert events == before + RequestEvent(geo, p);
    if marked == p {
      t := Extend(geo, s, events, Mark(w));
      events := events + [Mark(w)];
    }
    if landed == p {
      t := Extend(geo, s, events, Land(0));
      events := events + [Land(0)];
    }
    assert events == before + RequestEvent(geo, p) + WriteAt(w, p, marked, landed);
  }

  lemma InitialIsSized(geo: Geometry, s: System)
    requires Initial(geo, s)
    ensures Sized(geo, s)
  {
  }

  lemma {:induction false} ScheduleReaches(geo: Geometry, s: System, w: Write, p: nat, marked: nat, landed: nat)
    requires Initial(geo, s) && p <= LastMoment(geo) && marked <= landed <= LastMoment(geo)
    ensures Feasible(geo, s, Schedule(geo, w, p, marked, landed))
    ensures Reached(geo, s, Schedule(geo, w, p, marked, landed)) == Scheduled(geo, s, w, p, marked, landed)
  {
    hide Reached, Feasible, StateAt, Initial, LastMoment;
    InitialIsSized(geo, s);
    NoEvents(geo, s);
    if p > 0 {
      ScheduleReaches(geo, s, w, p - 1, marked, landed);
    }
    ScheduleStep(geo, s, w, p, marked, landed, if p == 0 then [] else Schedule(geo, w, p - 1, marked, landed));
  }

  /** Some continuation without further writes forgets sector x. */
  ghost predicate CanForget(geo: Geometry, s: System, w: Write, x: nat, marked: nat, landed: nat)
    requires Sized(geo, s) && x < geo.cap
  {
    exists rest :: NoWrites(rest) && ForgetsBy(geo, s, w, x, marked, landed, rest)
  }

  ghost predicate ForgetsBy(geo: Geometry, s: System, w: Write, x: nat, marked: nat, landed: nat, rest: seq<Event>)
    requires Sized(geo, s) && x < geo.cap
  {
    var events := Schedule(geo, w, LastMoment(geo), marked, landed) + rest;
    Feasible(geo, s, events) && Forgotten(geo, Reached(geo, s, events), x)
  }

  /** And leaves the write on the source, and what was there before it on the target. */
  ghost predicate LosesBy(geo: Geometry, s: System, w: Write, x: nat, marked: nat, landed: nat, rest: seq<Event>)
    requires Sized(geo, s) && w.start <= x < w.start + |w.data| && x < geo.cap
  {
    && NoWrites(rest) && ForgetsBy(geo, s, w, x, marked, landed, rest)
    && var t := Reached(geo, s, Schedule(geo, w, LastMoment(geo), marked, landed) + rest);
       t.source[x] == w.data[x - w.start] && t.client.target[x] == s.source[x]
  }

  lemma EventExposesNothing(geo: Geometry, s: System, e: Event)
    requires Sized(geo, s) && s.exposed == {} && s.pending == [] && !e.Mark?
    ensures Next(geo, s, e).exposed == {} && Next(geo, s, e).pending == []
  {
    assert PendingGrains(geo, []) == {};
  }

  lemma ReachedSnoc(geo: Geometry, s: System, events: seq<Event>, e: Event)
    requires Sized(geo, s)
    ensures Reached(geo, s, events + [e]) == Next(geo, Reached(geo, s, events), e)
  {
    assert (events + [e])[..|events|] == events;
    hide Next;
  }

  lemma {:induction false} NoWritesExposesNothing(geo: Geometry, s: System, before: seq<Event>, rest: seq<Event>)
    requires Sized(geo, s) && NoWrites(rest)
    requires Reached(geo, s, before).exposed == {} && Reached(geo, s, before).pending == []
    ensures Reached(geo, s, before + rest).exposed == {} && Reached(geo, s, before + rest).pending == []
  {
    hide Reached, Next;
    if rest == [] {
      assert before + rest == before;
    } else {
      var front, e := rest[..|rest| - 1], rest[|rest| - 1];
      NoWritesExposesNothing(geo, s, before, front);
      assert before + rest == (before + front) + [e];
      ReachedSnoc(geo, s, before + front, e);
      EventExposesNothing(geo, Reached(geo, s, before + front), e);
    }
  }

  /** At its last moment a request in which the write was marked before the FLIP and landed after the
      snapshot lacks it. */
  lemma ScheduledIsMissing(geo: Geometry, s: System, w: Write, x: nat, marked: nat, landed: nat)
    requires Initial(geo, s) && 0 < landed && marked < LastMoment(geo) && marked <= landed <= LastMoment(geo)
    requires w.start <= x < w.start + |w.data| && x < geo.cap && w.data[x - w.start] != s.source[x]
    ensures var t := Scheduled(geo, s, w, LastMoment(geo), marked, landed);
            && Sized(geo, t) && Missing(geo, t, x)
            && t.source[x] == w.data[x - w.start] && t.client.target[x] == s.source[x]
  {
    hide Grains, WordCount;
    SentWithinBits(geo, w, LastMoment(geo), marked);
    hide SentAt;
  }

  lemma SentWithinBits(geo: Geometry, w: Write, p: nat, marked: nat)
    requires geo.Valid()
    ensures forall g :: g in SentAt(geo, w, p, marked) ==> g < geo.bits
  {
  }

  lemma ScheduledExposesNothing(geo: Geometry, s: System, w: Write, marked: nat, landed: nat)
    requires Initial(geo, s) && marked <= landed <= LastMoment(geo) && !(marked < LastMoment(geo) && landed > 0)
    ensures var t := Scheduled(geo, s, w, LastMoment(geo), marked, landed); t.exposed == {} && t.pending == []
  {
  }

  /** On every device, from every initial state, for every write that changes a sector: a request can forget
      it if and only if it was marked before the FLIP and landed after the snapshot.  It can then leave the data
      written on the source and the old contents on the target for good. */
  lemma {:induction false} OneWriteForgottenIff(geo: Geometry, s: System, w: Write, x: nat, marked: nat, landed: nat)
    requires Initial(geo, s) && marked <= landed <= LastMoment(geo)
    requires w.start <= x < w.start + |w.data| && x < geo.cap && w.data[x - w.start] != s.source[x]
    ensures CanForget(geo, s, w, x, marked, landed) <==> marked < LastMoment(geo) && landed > 0
    ensures CanForget(geo, s, w, x, marked, landed) ==> exists rest :: LosesBy(geo, s, w, x, marked, landed, rest)
  {
    hide Feasible, Reached, Initial, Missing, Scheduled, LastMoment;
    InitialIsSized(geo, s);
    var before := Schedule(geo, w, LastMoment(geo), marked, landed);
    ScheduleReaches(geo, s, w, LastMoment(geo), marked, landed);
    if marked < LastMoment(geo) && landed > 0 {
      ScheduledIsMissing(geo, s, w, x, marked, landed);
      var rest := FinishRound(geo, s, x, before);
      assert ForgetsBy(geo, s, w, x, marked, landed, rest);
      assert LosesBy(geo, s, w, x, marked, landed, rest);
    } else {
      ScheduledExposesNothing(geo, s, w, marked, landed);
      forall rest | NoWrites(rest)
        ensures !ForgetsBy(geo, s, w, x, marked, landed, rest)
      {
        NoWritesExposesNothing(geo, s, before, rest);
        if Feasible(geo, s, before + rest) {
          NoUpdateLost(geo, s, before + rest, x);
          NoRiskWithoutExposure(geo, s, before + rest);
        }
      }
    }
  }

  lemma NoRiskWithoutExposure(geo: Geometry, s: System, events: seq<Event>)
    requires Initial(geo, s) && Feasible(geo, s, events) && Reached(geo, s, events).exposed == {}
    ensures Reached(geo, s, events).atRisk == {}
  {
    InitialInv(geo, s);
    RunKeepsInv(geo, s, events);
  }
}
