/** Restarts of the client daemon after crashes: what the bitmap file and the resync table must hold for a
    round to survive them, and how many threads come back. */
module Restart {
  import opened Geometry
  import opened ResyncSteps
  import opened Resume
  import opened Straight
  import opened Wire
  import opened WireLoss
  import opened WireSafety

  // ---------------------------------------------------------------- what a restarted daemon starts

  /** It starts one resync thread for each open row of the table. */
  function CountOpen(rows: seq<Row>): nat {
    if rows == [] then 0 else CountOpen(rows[1..]) + if rows[0].state != Completed then 1 else 0
  }

  lemma {:induction false} OpenOnes(rows: seq<Row>, i: nat)
    requires i < |rows| && rows[i].state != Completed
    ensures CountOpen(rows) >= 1
  {
    if i > 0 {
      OpenOnes(rows[1..], i - 1);
    }
  }

  lemma {:induction false} TwoOpenOnes(rows: seq<Row>, i: nat, j: nat)
    requires i < j < |rows| && rows[i].state != Completed && rows[j].state != Completed
    ensures CountOpen(rows) >= 2 && !OneOpenRow(rows)
  {
    if i > 0 {
      TwoOpenOnes(rows[1..], i - 1, j - 1);
    } else {
      OpenOnes(rows[1..], j - 1);
    }
    assert FirstOpen(rows) <= i;
  }

  /** The start of the daemon: its loop over the open rows has `left` rows to come.  For each it connects, gives the
      client an empty bitmap, reads the file into that, and creates a thread at the position of the first row;
      threads already created run meanwhile. */
  datatype Boot = Boot(net: Net, bitmap: set<nat>, left: nat, cleared: bool)

  datatype Turn = OfLoop | OfThread(i: nat)

  function Booting(c: Client): Boot {
    Boot(Net(c.target, Header(OTHER, Chunk(0, 0)), [], false, false, c.paused, []), {}, CountOpen(c.rows), false)
  }

  function Take(geo: Geometry, snap: seq<Sector>, saved: set<nat>, p: nat, b: Boot, t: Turn): (d: Boot)
    requires Wire.Sized(geo, snap, b.net)
    ensures Wire.Sized(geo, snap, d.net)
  {
    match t
    case OfThread(i) => b.(net := Move(geo, snap, b.bitmap, b.net, i))
    case OfLoop =>
      if b.left == 0 then b
      else if b.cleared then
        b.(bitmap := saved, cleared := false, left := b.left - 1, net := b.net.(stages := b.net.stages + [Starting(p)]))
      else if b.net.done then b.(left := b.left - 1)
      else b.(bitmap := {}, cleared := true, net := b.net.(replies := []))
  }

  function Turns(geo: Geometry, snap: seq<Sector>, saved: set<nat>, p: nat, b: Boot, turns: seq<Turn>): (d: Boot)
    requires Wire.Sized(geo, snap, b.net)
    ensures Wire.Sized(geo, snap, d.net)
  {
    if turns == [] then b
    else Take(geo, snap, saved, p, Turns(geo, snap, saved, p, b, turns[..|turns| - 1]), turns[|turns| - 1])
  }

  // ---------------------------------------------------------------- the question

  ghost predicate AllCopied(geo: Geometry, snap: seq<Sector>, sent: set<nat>, target: seq<Sector>)
    requires geo.grain > 0 && |target| == |snap|
  {
    forall x: nat :: x < |target| && geo.GrainOf(x) in sent ==> target[x] == snap[x]
  }

  /** If the daemon crashes in m and comes back with one thread, and the run `after` finishes the round, every grain
      the client was sent has been copied. */
  ghost predicate SurvivesAlone(geo: Geometry, snap: seq<Sector>, sent: set<nat>, m: Client, after: seq<Action>)
    requires Fits(geo, snap, m)
  {
    var e := Step(geo, snap, m, Crash);
    Possible(geo, snap, e, after) && After(geo, snap, e, after).rep == Completed ==>
      AllCopied(geo, snap, sent, After(geo, snap, e, after).target)
  }

  /** If it comes back with several threads, which take turns, and the server is told to terminate, likewise. */
  ghost predicate SurvivesTogether(geo: Geometry, snap: seq<Sector>, sent: set<nat>, m: Client, turns: seq<Turn>)
    requires Fits(geo, snap, m)
  {
    FirstOpen(m.rows) < |m.rows| ==>
      var w := Turns(geo, snap, m.saved, m.rows[FirstOpen(m.rows)].pos, Booting(m), turns).net;
      w.told ==> AllCopied(geo, snap, sent, w.target)
  }

  /** A crash in m loses nothing. */
  ghost predicate SurvivesCrash(geo: Geometry, snap: seq<Sector>, sent: set<nat>, m: Client)
    requires Fits(geo, snap, m)
  {
    if OneOpenRow(m.rows) then forall after :: SurvivesAlone(geo, snap, sent, m, after)
    else forall turns :: SurvivesTogether(geo, snap, sent, m, turns)
  }

  /** A round for the bitmap `sent` is to begin, over the rows earlier rounds left in the table. */
  ghost predicate Beginning(geo: Geometry, rows: seq<Row>, sent: set<nat>, snap: seq<Sector>, c: Client) {
    Fits(geo, snap, c) && Ready(geo, LoadBitmap(c, sent)) && !c.paused && c.rows == rows
  }

  /** The state of that round after the run `before`. */
  function During(geo: Geometry, sent: set<nat>, snap: seq<Sector>, c: Client, before: seq<Action>): (m: Client)
    requires Fits(geo, snap, c)
    ensures Fits(geo, snap, m)
  {
    After(geo, snap, Begin(LoadBitmap(c, sent), NO_RESYNC), before)
  }

  ghost predicate Reached(geo: Geometry, rows: seq<Row>, sent: set<nat>, snap: seq<Sector>, c: Client, before: seq<Action>) {
    && Beginning(geo, rows, sent, snap, c)
    && Possible(geo, snap, Begin(LoadBitmap(c, sent), NO_RESYNC), before)
    && During(geo, sent, snap, c, before).begun
  }

  /** Whatever the disks hold, a crash anywhere in the round loses nothing. */
  ghost predicate CrashesAreSurvived(geo: Geometry, rows: seq<Row>, sent: set<nat>) {
    forall snap, c, before :: Reached(geo, rows, sent, snap, c, before) ==>
      SurvivesCrash(geo, snap, sent, During(geo, sent, snap, c, before))
  }

  /** So does one that finds a single open row. */
  ghost predicate LoneCrashesAreSurvived(geo: Geometry, rows: seq<Row>, sent: set<nat>) {
    forall snap, c, before ::
      Reached(geo, rows, sent, snap, c, before) && OneOpenRow(During(geo, sent, snap, c, before).rows) ==>
        SurvivesCrash(geo, snap, sent, During(geo, sent, snap, c, before))
  }

  /** So would any crash if only one thread were started, at the position of the first open row. */
  ghost predicate FirstRowWillDo(geo: Geometry, rows: seq<Row>, sent: set<nat>) {
    forall snap, c, before, after :: Reached(geo, rows, sent, snap, c, before) ==>
      SurvivesAlone(geo, snap, sent, During(geo, sent, snap, c, before), after)
  }

  ghost predicate CoversSector(geo: Geometry, sent: set<nat>)
    requires geo.grain > 0
  {
    exists x: nat :: x < geo.cap && geo.GrainOf(x) in sent
  }

  /** The oldest row, which a pause reopens, stands past no grain of the round that a pause can precede: the
      first two cannot be, because a pause is ignored while the position is 0. */
  ghost predicate OldestRowHarmless(geo: Geometry, rows: seq<Row>, sent: set<nat>)
    requires geo.grain > 0
  {
    rows != [] ==> forall x: nat :: x < geo.cap && geo.GrainOf(x) in sent ==> !(2 <= geo.GrainOf(x) < rows[0].pos)
  }

  // ---------------------------------------------------------------- surviving

  /** What the table and the file hold in an open round over `old` earlier rows. */
  ghost predicate TableGood(geo: Geometry, snap: seq<Sector>, dirty: set<nat>, rows: seq<Row>, c: Client)
    requires Fits(geo, snap, c)
  {
    && c.saved == dirty
    && MayStartAt(geo, snap, dirty, c.target, c.last)
    && (c.thread.InGrain? && c.paused ==> c.last > 0)
    && |rows| < |c.rows|
    && (forall i :: |rows| <= i < |c.rows| ==>
          c.rows[i].state != Completed && MayStartAt(geo, snap, dirty, c.target, c.rows[i].pos))
    && (rows != [] ==>
          if c.rows[0].state == Completed then
            && c.rows[0].pos == rows[0].pos && !c.paused
            && forall i :: 0 <= i < |rows| ==> c.rows[i].state == Completed
          else MayStartAt(geo, snap, dirty, c.target, c.rows[0].pos))
  }

  lemma TickKeepsTable(geo: Geometry, snap: seq<Sector>, dirty: set<nat>, rows: seq<Row>, c: Client)
    requires Open(geo, snap, dirty, c) && TableGood(geo, snap, dirty, rows, c) && c.thread != NotRunning
    requires Step(geo, snap, c, Tick).begun
    ensures TableGood(geo, snap, dirty, rows, Step(geo, snap, c, Tick))
  {
    StillMayStart(geo, snap, dirty, c, Tick);
    match c.thread
    case Head(b) =>
    case OutOfLoop =>
    case Ending =>
    case InGrain(b, k) =>
      if k == geo.Chunks() || c.paused {
        GrainLeft(geo, snap, dirty, c);
      }
      hide MayStartAt, DoneBelow, ChunksDone, Copied;
  }

  /** A pause reopens the oldest row where it stands. */
  lemma PauseKeepsTable(geo: Geometry, snap: seq<Sector>, dirty: set<nat>, rows: seq<Row>, c: Client)
    requires Open(geo, snap, dirty, c) && TableGood(geo, snap, dirty, rows, c) && OldestRowHarmless(geo, rows, dirty)
    requires rows != [] ==> rows[0].pos < geo.bits
    ensures TableGood(geo, snap, dirty, rows, Step(geo, snap, c, AskPause))
  {
    if c.last > 0 && rows != [] && c.rows[0].state == Completed {
      assert DoneBelow(geo, snap, dirty, c.target, rows[0].pos);
    }
  }

  lemma OtherKeepsTable(geo: Geometry, snap: seq<Sector>, dirty: set<nat>, rows: seq<Row>, c: Client, a: Action)
    requires Open(geo, snap, dirty, c) && TableGood(geo, snap, dirty, rows, c)
    requires Enabled(geo, c, a) && a != Tick && a != AskPause && a != Crash
    ensures TableGood(geo, snap, dirty, rows, Step(geo, snap, c, a))
  {
    assert MayStartAt(geo, snap, dirty, c.target, 0);
    hide MayStartAt, DoneBelow, ChunksDone;
  }

  lemma CrashKeepsTable(geo: Geometry, snap: seq<Sector>, dirty: set<nat>, rows: seq<Row>, c: Client)
    requires Open(geo, snap, dirty, c) && TableGood(geo, snap, dirty, rows, c)
    ensures var d := Step(geo, snap, c, Crash);
            Open(geo, snap, dirty, d) && TableGood(geo, snap, dirty, rows, d)
  {
    var i := FirstOpen(c.rows);
    assert c.rows[|c.rows| - 1].state != Completed;
    assert i < |c.rows|;
    assert i == 0 || i >= |rows|;
    hide ChunksDone;
  }

  ghost predicate Surviving(geo: Geometry, snap: seq<Sector>, dirty: set<nat>, rows: seq<Row>, c: Client) {
    && Fits(geo, snap, c) && Round(geo, snap, dirty, c)
    && (c.begun ==> TableGood(geo, snap, dirty, rows, c))
  }

  lemma StepSurvives(geo: Geometry, snap: seq<Sector>, dirty: set<nat>, rows: seq<Row>, c: Client, a: Action)
    requires Surviving(geo, snap, dirty, rows, c) && Enabled(geo, c, a) && OldestRowHarmless(geo, rows, dirty)
    requires rows != [] ==> rows[0].pos < geo.bits
    ensures Surviving(geo, snap, dirty, rows, Step(geo, snap, c, a))
  {
    hide TableGood, Step, Enabled, OldestRowHarmless, Open, ResyncSteps.Closed;
    StepKeepsRound(geo, snap, dirty, c, a);
    if Step(geo, snap, c, a).begun {
      BegunBefore(geo, snap, dirty, c, a);
      OpenIsBegun(geo, snap, dirty, c);
      if a == Crash {
        CrashKeepsTable(geo, snap, dirty, rows, c);
      } else if a == Tick {
        RunningOnly(geo, c);
        TickKeepsTable(geo, snap, dirty, rows, c);
      } else if a == AskPause {
        PauseKeepsTable(geo, snap, dirty, rows, c);
      } else {
        OtherKeepsTable(geo, snap, dirty, rows, c, a);
      }
    }
  }

  lemma OpenIsBegun(geo: Geometry, snap: seq<Sector>, dirty: set<nat>, c: Client)
    requires Open(geo, snap, dirty, c)
    ensures c.begun && Fits(geo, snap, c)
  {
  }

  lemma RunningOnly(geo: Geometry, c: Client)
    requires geo.grain > 0 && Enabled(geo, c, Tick)
    ensures c.thread != NotRunning
  {
  }

  lemma {:induction false} RunSurvives(geo: Geometry, snap: seq<Sector>, dirty: set<nat>, rows: seq<Row>, c: Client,
                                       actions: seq<Action>)
    requires Surviving(geo, snap, dirty, rows, c) && OldestRowHarmless(geo, rows, dirty)
    requires rows != [] ==> rows[0].pos < geo.bits
    requires Possible(geo, snap, c, actions)
    ensures Surviving(geo, snap, dirty, rows, After(geo, snap, c, actions))
  {
    hide TableGood, Step, Enabled, OldestRowHarmless, Open, ResyncSteps.Closed, Possible, After;
    if actions == [] {
      EmptyRun(geo, snap, c);
    } else {
      LastStep(geo, snap, c, actions);
      RunSurvives(geo, snap, dirty, rows, c, actions[..|actions| - 1]);
      StepSurvives(geo, snap, dirty, rows, After(geo, snap, c, actions[..|actions| - 1]), actions[|actions| - 1]);
    }
  }

  lemma FinishedIsCopied(geo: Geometry, snap: seq<Sector>, sent: set<nat>, c: Client)
    requires Round(geo, snap, sent, c) && c.rep == Completed
    ensures AllCopied(geo, snap, sent, c.target)
  {
    forall x: nat | x < geo.cap
      ensures geo.GrainOf(x) < geo.bits
    {
      GrainInBitmap(geo, x);
    }
  }

  /** With one thread the round goes on in good order. */
  lemma AloneSurvives(geo: Geometry, snap: seq<Sector>, sent: set<nat>, rows: seq<Row>, m: Client, after: seq<Action>)
    requires Open(geo, snap, sent, m) && TableGood(geo, snap, sent, rows, m)
    ensures SurvivesAlone(geo, snap, sent, m, after)
  {
    CrashKeepsTable(geo, snap, sent, rows, m);
    var e := Step(geo, snap, m, Crash);
    OpenIsRound(geo, snap, sent, e);
    hide Open, ResyncSteps.Closed, Possible, After, Step, TableGood, AllCopied;
    if Possible(geo, snap, e, after) && After(geo, snap, e, after).rep == Completed {
      RunKeepsRound(geo, snap, sent, e, after);
      FinishedIsCopied(geo, snap, sent, After(geo, snap, e, after));
    }
  }

  lemma BeginsSurviving(geo: Geometry, rows: seq<Row>, sent: set<nat>, snap: seq<Sector>, c: Client)
    requires Beginning(geo, rows, sent, snap, c) && FirstWordMarked(sent)
    requires forall i :: 0 <= i < |rows| ==> rows[i].state == Completed && rows[i].pos < geo.bits
    ensures var b := Begin(LoadBitmap(c, sent), NO_RESYNC);
            Open(geo, snap, sent, b) && TableGood(geo, snap, sent, rows, b) && OwnRow(geo, |rows|, b)
  {
    BeginOpens(geo, snap, LoadBitmap(c, sent), NO_RESYNC);
    var b := Begin(LoadBitmap(c, sent), NO_RESYNC);
    assert b.rows[|rows|] == Row(0, InProgress);
  }

  lemma SurvivesIfRestartable(geo: Geometry, rows: seq<Row>, sent: set<nat>, snap: seq<Sector>, c: Client,
                              before: seq<Action>, after: seq<Action>)
    requires geo.Valid() && FirstWordMarked(sent) && OldestRowHarmless(geo, rows, sent)
    requires forall i :: 0 <= i < |rows| ==> rows[i].state == Completed && rows[i].pos < geo.bits
    requires Reached(geo, rows, sent, snap, c, before)
    ensures SurvivesAlone(geo, snap, sent, During(geo, sent, snap, c, before), after)
  {
    var b := Begin(LoadBitmap(c, sent), NO_RESYNC);
    BeginsSurviving(geo, rows, sent, snap, c);
    OpenIsRound(geo, snap, sent, b);
    hide Possible, After, OldestRowHarmless, TableGood, Open, ResyncSteps.Closed, SurvivesAlone;
    var m := After(geo, snap, b, before);
    RunSurvives(geo, snap, sent, rows, b, before);
    BegunIsOpen(geo, snap, sent, m);
    AloneSurvives(geo, snap, sent, rows, m, after);
  }

  // ---------------------------------------------------------------- the round's own row

  /** The round's own rows are open; if only one is, it has the round's position and state. */
  predicate OwnRow(geo: Geometry, prior: nat, c: Client) {
    && (forall i :: 0 <= i < |c.rows| ==> c.rows[i].pos < geo.bits)
    && c.saved == c.bitmap && prior < |c.rows|
    && (forall i :: prior <= i < |c.rows| ==> c.rows[i].state != Completed)
    && (OneOpenRow(c.rows) ==> c.rows[prior] == Row(c.persisted, c.rep))
  }

  lemma OneIsOwn(rows: seq<Row>, prior: nat)
    requires prior < |rows| && (forall i :: prior <= i < |rows| ==> rows[i].state != Completed)
    ensures OneOpenRow(rows) <==> FirstOpen(rows) == prior == |rows| - 1
  {
    assert rows[prior].state != Completed;
    assert rows[|rows| - 1].state != Completed;
  }

  lemma TickRows(geo: Geometry, snap: seq<Sector>, dirty: set<nat>, c: Client)
    requires Open(geo, snap, dirty, c) && Enabled(geo, c, Tick) && Step(geo, snap, c, Tick).begun
    ensures var d := Step(geo, snap, c, Tick);
            && d.saved == c.saved && d.bitmap == c.bitmap && d.rep == c.rep != Completed
            && (|| (d.rows == c.rows && d.persisted == c.persisted)
                || (d.rows == MovePosition(c.rows, d.persisted, c.rep) && d.persisted < geo.bits))
  {
    hide Copied, DoneBelow, ChunksDone, AskedGood, MovePosition;
  }

  lemma TickKeepsOwnRow(geo: Geometry, snap: seq<Sector>, dirty: set<nat>, prior: nat, c: Client)
    requires Open(geo, snap, dirty, c) && OwnRow(geo, prior, c) && Enabled(geo, c, Tick)
    requires Step(geo, snap, c, Tick).begun
    ensures OwnRow(geo, prior, Step(geo, snap, c, Tick))
  {
    hide Open, Enabled, Step, OneOpenRow;
    OpenIsBegun(geo, snap, dirty, c);
    var d := Step(geo, snap, c, Tick);
    TickRows(geo, snap, dirty, c);
    OneIsOwn(c.rows, prior);
    OneIsOwn(d.rows, prior);
    if OneOpenRow(d.rows) {
      assert forall i :: 0 <= i < prior ==> c.rows[i].state == Completed;
      OneIfRestCompleted(c.rows, prior);
    }
  }

  lemma OneIfRestCompleted(rows: seq<Row>, prior: nat)
    requires prior == |rows| - 1 && rows[prior].state != Completed
    requires forall i :: 0 <= i < prior ==> rows[i].state == Completed
    ensures OneOpenRow(rows)
  {
  }

  /** A start at bit 0 adds a row; any other keeps the table. */
  lemma LaunchKeepsOwnRow(geo: Geometry, prior: nat, c: Client, bit: nat)
    requires geo.Valid() && OwnRow(geo, prior, c)
    ensures OwnRow(geo, prior, Launch(c, bit))
  {
    hide OneOpenRow;
    OneIsOwn(c.rows, prior);
    OneIsOwn(Launch(c, bit).rows, prior);
  }

  lemma StateKeepsOwnRow(geo: Geometry, prior: nat, c: Client, state: RepState)
    requires OwnRow(geo, prior, c) && state != Completed
    ensures OwnRow(geo, prior, c.(rep := state, rows := SetStates(c.rows, state)))
  {
    hide OneOpenRow;
    var rows := SetStates(c.rows, state);
    OneIsOwn(c.rows, prior);
    OneIsOwn(rows, prior);
    if OneOpenRow(rows) {
      assert forall i :: 0 <= i < prior ==> rows[i].state == Completed;
      assert prior == 0;
      OneIfRestCompleted(c.rows, prior);
    }
  }

  lemma StepKeepsOwnRow(geo: Geometry, snap: seq<Sector>, dirty: set<nat>, prior: nat, c: Client, a: Action)
    requires Open(geo, snap, dirty, c) && OwnRow(geo, prior, c) && Enabled(geo, c, a) && Step(geo, snap, c, a).begun
    ensures OwnRow(geo, prior, Step(geo, snap, c, a))
  {
    OpenIsBegun(geo, snap, dirty, c);
    match a {
      case Tick => TickKeepsOwnRow(geo, snap, dirty, prior, c);
      case AskPause => StateKeepsOwnRow(geo, prior, c, Pause);
      case AskResume =>
        StateKeepsOwnRow(geo, prior, c, Resume);
        LaunchKeepsOwnRow(geo, prior, c.(paused := false, rep := Resume, rows := SetStates(c.rows, Resume)), c.last);
      case Recover => LaunchKeepsOwnRow(geo, prior, c.(outage := Up), c.last);
      case Crash => OneIsOwn(c.rows, prior);
      case _ =>
    }
    hide Open, Launch, TickStep, SetStates, OneOpenRow;
  }

  lemma {:induction false} RunKeepsOwnRow(geo: Geometry, snap: seq<Sector>, dirty: set<nat>, prior: nat, c: Client,
                                          actions: seq<Action>)
    requires Open(geo, snap, dirty, c) && OwnRow(geo, prior, c) && Possible(geo, snap, c, actions)
    requires After(geo, snap, c, actions).begun
    ensures Open(geo, snap, dirty, After(geo, snap, c, actions)) && OwnRow(geo, prior, After(geo, snap, c, actions))
  {
    hide Step, Enabled, Open, ResyncSteps.Closed, Possible, After, OwnRow;
    OpenIsBegun(geo, snap, dirty, c);
    if actions == [] {
      EmptyRun(geo, snap, c);
    } else {
      var front, a := actions[..|actions| - 1], actions[|actions| - 1];
      LastStep(geo, snap, c, actions);
      OpenIsRound(geo, snap, dirty, c);
      RunKeepsRound(geo, snap, dirty, c, front);
      var d := After(geo, snap, c, front);
      BegunBefore(geo, snap, dirty, d, a);
      OpenIsBegun(geo, snap, dirty, d);
      RunKeepsOwnRow(geo, snap, dirty, prior, c, front);
      StepKeepsOwnRow(geo, snap, dirty, prior, d, a);
      StepKeepsRound(geo, snap, dirty, d, a);
      BegunIsOpen(geo, snap, dirty, Step(geo, snap, d, a));
    }
  }

  /** What the step system asks of a daemon that crashes comes down to this, in any round whose bitmap reached
      the file: one row is open. */
  lemma {:induction false} GuardIsOneOpenRow(geo: Geometry, rows: seq<Row>, sent: set<nat>, snap: seq<Sector>, c: Client,
                                             before: seq<Action>)
    requires Reached(geo, rows, sent, snap, c, before) && FirstWordMarked(sent)
    requires forall i :: 0 <= i < |rows| ==> rows[i].state == Completed && rows[i].pos < geo.bits
    ensures var m := During(geo, sent, snap, c, before);
            && Open(geo, snap, sent, m) && OwnRow(geo, |rows|, m)
            && (Enabled(geo, m, Crash) <==> OneOpenRow(m.rows))
  {
    BeginsSurviving(geo, rows, sent, snap, c);
    hide Possible, After, Open, OneOpenRow;
    RunKeepsOwnRow(geo, snap, sent, |rows|, Begin(LoadBitmap(c, sent), NO_RESYNC), before);
    var m := During(geo, sent, snap, c, before);
    OpenIsBegun(geo, snap, sent, m);
    OneIsOwn(m.rows, |rows|);
  }

  lemma LoneCrashIsSafe(geo: Geometry, snap: seq<Sector>, sent: set<nat>, m: Client)
    requires Open(geo, snap, sent, m) && Enabled(geo, m, Crash)
    ensures SurvivesCrash(geo, snap, sent, m)
  {
    var e := Step(geo, snap, m, Crash);
    OpenIsRound(geo, snap, sent, m);
    StepKeepsRound(geo, snap, sent, m, Crash);
    forall after
      ensures SurvivesAlone(geo, snap, sent, m, after)
    {
      hide Open, ResyncSteps.Closed, Possible, After, Step, AllCopied, Enabled;
      if Possible(geo, snap, e, after) && After(geo, snap, e, after).rep == Completed {
        RunKeepsRound(geo, snap, sent, e, after);
        FinishedIsCopied(geo, snap, sent, After(geo, snap, e, after));
      }
    }
  }

  // ---------------------------------------------------------------- several threads

  lemma OneMoreTurn(geo: Geometry, snap: seq<Sector>, saved: set<nat>, p: nat, b: Boot, turns: seq<Turn>, t: Turn)
    requires Wire.Sized(geo, snap, b.net)
    ensures Turns(geo, snap, saved, p, b, turns + [t]) ==
            Take(geo, snap, saved, p, Turns(geo, snap, saved, p, b, turns), t)
  {
    assert (turns + [t])[..|turns|] == turns;
    hide Take;
  }

  /** Only threads run. */
  lemma {:induction false} ThreadTurns(geo: Geometry, snap: seq<Sector>, saved: set<nat>, p: nat, b: Boot,
                                       turns: seq<Turn>, schedule: seq<nat>) returns (more: seq<Turn>)
    requires Wire.Sized(geo, snap, b.net)
    ensures var d := Turns(geo, snap, saved, p, b, turns);
            Turns(geo, snap, saved, p, b, more) == d.(net := Moves(geo, snap, d.bitmap, d.net, schedule))
    decreases |schedule|
  {
    var d := Turns(geo, snap, saved, p, b, turns);
    if schedule == [] {
      NoneYet(geo, snap, d.bitmap, d.net);
      more := turns;
    } else {
      var front, i := schedule[..|schedule| - 1], schedule[|schedule| - 1];
      more := ThreadTurns(geo, snap, saved, p, b, turns, front);
      OneMore(geo, snap, d.bitmap, d.net, front, i);
      assert front + [i] == schedule;
      OneMoreTurn(geo, snap, saved, p, b, more, OfThread(i));
      hide Move, Moves, Turns;
      more := more + [OfThread(i)];
    }
  }

  lemma OneRow(geo: Geometry, snap: seq<Sector>, saved: set<nat>, p: nat, b: Boot)
    requires Wire.Sized(geo, snap, b.net) && b.left > 0 && !b.cleared && !b.net.done
    ensures Take(geo, snap, saved, p, Take(geo, snap, saved, p, b, OfLoop), OfLoop) ==
            Boot(b.net.(stages := b.net.stages + [Starting(p)], replies := []), saved, b.left - 1, false)
  {
  }

  /** Once the round is done, the rows still to come start no thread. */
  lemma {:induction false} DoneStartsNone(geo: Geometry, snap: seq<Sector>, saved: set<nat>, p: nat, b: Boot,
                                          turns: seq<Turn>)
    requires Wire.Sized(geo, snap, b.net) && b.net.done && !b.cleared
    ensures var d := Turns(geo, snap, saved, p, b, turns);
            |d.net.stages| == |b.net.stages| && d.net.done && !d.cleared && d.bitmap == b.bitmap
  {
    if turns != [] {
      DoneStartsNone(geo, snap, saved, p, b, turns[..|turns| - 1]);
      hide Write;
    }
  }

  /** So many threads about to begin at p. */
  function Starters(p: nat, k: nat): (r: seq<Stage>)
    ensures |r| == k
    ensures forall i :: 0 <= i < k ==> r[i] == Starting(p)
  {
    if k == 0 then [] else Starters(p, k - 1) + [Starting(p)]
  }

  /** If no thread has moved by the time the loop is through, there is one at the position for each open row, over the
      bitmap of the file. */
  lemma {:induction false} LoopAlone(geo: Geometry, snap: seq<Sector>, saved: set<nat>, p: nat, b: Boot)
    returns (turns: seq<Turn>)
    requires Wire.Sized(geo, snap, b.net) && b.left > 0 && !b.cleared && !b.net.done
    ensures (forall i :: 0 <= i < |turns| ==> turns[i] == OfLoop)
    ensures var d := Turns(geo, snap, saved, p, b, turns);
            && d == Boot(b.net.(stages := d.net.stages, replies := []), saved, 0, false)
            && d.net.stages == b.net.stages + Starters(p, b.left)
  {
    turns := [];
    assert Turns(geo, snap, saved, p, b, turns) == b;
    var d := b;
    hide Turns, Take;
    while d.left > 0
      invariant Wire.Sized(geo, snap, d.net) && d == Turns(geo, snap, saved, p, b, turns)
      invariant d.left <= b.left && !d.cleared
      invariant forall i :: 0 <= i < |turns| ==> turns[i] == OfLoop
      invariant d.net == b.net.(stages := d.net.stages, replies := d.net.replies)
      invariant d.net.stages == b.net.stages + Starters(p, b.left - d.left)
      invariant d.left < b.left ==> d.bitmap == saved && d.net.replies == []
      decreases d.left
    {
      OneMoreTurn(geo, snap, saved, p, b, turns, OfLoop);
      turns := turns + [OfLoop];
      OneMoreTurn(geo, snap, saved, p, b, turns, OfLoop);
      turns := turns + [OfLoop];
      OneRow(geo, snap, saved, p, d);
      d := Take(geo, snap, saved, p, Take(geo, snap, saved, p, d, OfLoop), OfLoop);
    }
  }

  /** With one open row that is the thread, and the bitmap, of the step system's crash. */
  lemma {:induction false} OneRowIsOneThread(geo: Geometry, snap: seq<Sector>, m: Client) returns (turns: seq<Turn>)
    requires Fits(geo, snap, m) && OneOpenRow(m.rows)
    ensures var p := m.rows[FirstOpen(m.rows)].pos; var e := Step(geo, snap, m, Crash);
            var d := Turns(geo, snap, m.saved, p, Booting(m), turns);
            && d.net.stages == [Starting(p)] && e.thread == Head(p) && d.bitmap == e.bitmap && d.left == 0
            && d.net.target == e.target && d.net.header == Header(OTHER, e.asked) && d.net.paused == e.paused
            && d.net.replies == [] && !d.net.told && !d.net.done
  {
    var p := m.rows[FirstOpen(m.rows)].pos;
    OneIsCounted(m.rows);
    turns := LoopAlone(geo, snap, m.saved, p, Booting(m));
    hide Turns;
    assert Starters(p, 1) == [Starting(p)];
  }

  lemma {:induction false} OneIsCounted(rows: seq<Row>)
    requires OneOpenRow(rows)
    ensures CountOpen(rows) == 1
  {
    var i := FirstOpen(rows);
    if i == 0 {
      NoneIsCounted(rows[1..]);
    } else {
      assert FirstOpen(rows[1..]) == i - 1;
      forall j | i - 1 < j < |rows| - 1
        ensures rows[1..][j].state == Completed
      {
        assert rows[1..][j] == rows[j + 1];
      }
      OneIsCounted(rows[1..]);
    }
  }

  lemma {:induction false} NoneIsCounted(rows: seq<Row>)
    requires forall j :: 0 <= j < |rows| ==> rows[j].state == Completed
    ensures CountOpen(rows) == 0
  {
    if rows != [] {
      NoneIsCounted(rows[1..]);
    }
  }

  /** The loop has created one thread, and cleared the bitmap for the next. */
  lemma FirstThread(geo: Geometry, snap: seq<Sector>, saved: set<nat>, p: nat, b: Boot) returns (turns: seq<Turn>)
    requires Wire.Sized(geo, snap, b.net) && b.left >= 2 && !b.cleared && !b.net.done && b.net.stages == []
    ensures Turns(geo, snap, saved, p, b, turns) ==
            Boot(b.net.(stages := [Starting(p)], replies := []), {}, b.left - 1, true)
  {
    turns := [];
    assert Turns(geo, snap, saved, p, b, turns) == b;
    OneMoreTurn(geo, snap, saved, p, b, turns, OfLoop);
    turns := turns + [OfLoop];
    OneMoreTurn(geo, snap, saved, p, b, turns, OfLoop);
    turns := turns + [OfLoop];
    OneMoreTurn(geo, snap, saved, p, b, turns, OfLoop);
    turns := turns + [OfLoop];
    hide Turns;
  }

  /** Over an empty bitmap a thread runs to the end and copies nothing. */
  lemma EmptyPass(geo: Geometry, snap: seq<Sector>, p: nat, n: Net) returns (schedule: seq<nat>)
    requires Wire.Sized(geo, snap, n) && n.stages == [Starting(p)] && p <= geo.bits && n.replies == []
    requires !n.told && !n.done && !n.paused
    ensures var m := Moves(geo, snap, {}, n, schedule); m.told && m.target == n.target
  {
    assert Running(geo, {}, n, 0);
    assert HeaderKept(geo, {}, p, n.header.chunk, n.stages[0], n.header.chunk);
    assert AllWithin(geo, {}, 0, n);
    hide Moves, Running, HeaderKept;
    schedule := RunOn(geo, snap, {}, n, 0, p, n.header.chunk);
    OneMore(geo, snap, {}, n, schedule, 0);
    schedule := schedule + [0];
    SectorlessIsSafe(geo, snap, {}, 0, n, schedule);
  }

  /** Paused threads cancel the one created last: the first cancels the second, and terminates. */
  lemma PausedPass(geo: Geometry, snap: seq<Sector>, dirty: set<nat>, p: nat, n: Net) returns (schedule: seq<nat>)
    requires Wire.Sized(geo, snap, n) && n.stages == [Starting(p), Starting(p)]
    requires !n.told && !n.done && n.paused
    ensures var m := Moves(geo, snap, dirty, n, schedule); m.told && m.target == n.target
  {
    schedule := [];
    NoneYet(geo, snap, dirty, n);
    ghost var m := n;
    var stages: seq<Stage> := [Starting(p), AtHead(p), Out, Cancelling, AtEnd, Closing, Closed];
    var k := 0;
    hide Moves;
    while k < 6
      invariant 0 <= k <= 6 && |schedule| == k
      invariant Wire.Sized(geo, snap, m) && m == Moves(geo, snap, dirty, n, schedule)
      invariant |m.stages| == 2 && m.stages[0] == stages[k] && !m.done && m.paused && m.target == n.target
      invariant m.told <==> k == 6
      invariant k == 5 ==> m.header.op == TERMINATION
    {
      OneMore(geo, snap, dirty, n, schedule, 0);
      m := Move(geo, snap, dirty, m, 0);
      schedule := schedule + [0];
      k := k + 1;
    }
  }

  /** Whatever several threads have left to copy can be lost: the first runs to the end while the loop has the
      bitmap cleared for the second, or, if the round is paused, cancels the second in its own place. */
  lemma {:induction false} SeveralLose(geo: Geometry, snap: seq<Sector>, sent: set<nat>, m: Client)
    requires Fits(geo, snap, m) && !OneOpenRow(m.rows) && FirstOpen(m.rows) < |m.rows|
    requires m.rows[FirstOpen(m.rows)].pos <= geo.bits && !AllCopied(geo, snap, sent, m.target)
    ensures !SurvivesCrash(geo, snap, sent, m)
  {
    var i := FirstOpen(m.rows);
    var j :| i < j < |m.rows| && m.rows[j].state != Completed;
    TwoOpenOnes(m.rows, i, j);
    var p, b := m.rows[i].pos, Booting(m);
    var turns := FirstThread(geo, snap, m.saved, p, b);
    var d := Turns(geo, snap, m.saved, p, b, turns);
    hide Turns, Moves, Move, AllCopied;
    var schedule;
    if m.paused {
      OneMoreTurn(geo, snap, m.saved, p, b, turns, OfLoop);
      turns := turns + [OfLoop];
      d := Turns(geo, snap, m.saved, p, b, turns);
      schedule := PausedPass(geo, snap, d.bitmap, p, d.net);
    } else {
      schedule := EmptyPass(geo, snap, p, d.net);
    }
    turns := ThreadTurns(geo, snap, m.saved, p, b, turns, schedule);
    assert !SurvivesTogether(geo, snap, sent, m, turns);
  }

  /** In a round whose bitmap reached the file, a crash that comes while something is left to copy is survived if and
      only if one row is open. */
  lemma {:induction false} CrashIsSurvivedIff(geo: Geometry, rows: seq<Row>, sent: set<nat>, snap: seq<Sector>, c: Client,
                                              before: seq<Action>)
    requires Reached(geo, rows, sent, snap, c, before) && FirstWordMarked(sent)
    requires forall i :: 0 <= i < |rows| ==> rows[i].state == Completed && rows[i].pos < geo.bits
    requires !AllCopied(geo, snap, sent, During(geo, sent, snap, c, before).target)
    ensures var m := During(geo, sent, snap, c, before);
            SurvivesCrash(geo, snap, sent, m) <==> OneOpenRow(m.rows)
  {
    var m := During(geo, sent, snap, c, before);
    GuardIsOneOpenRow(geo, rows, sent, snap, c, before);
    hide SurvivesCrash, AllCopied, Open, OneOpenRow, During, Reached;
    if OneOpenRow(m.rows) {
      LoneCrashIsSafe(geo, snap, sent, m);
    } else {
      assert m.rows[|rows|].state != Completed;
      SeveralLose(geo, snap, sent, m);
    }
  }

  // ---------------------------------------------------------------- the ways to lose

  /** A client about to receive a bitmap. */
  function WaitingClient(rows: seq<Row>, saved: set<nat>, target: seq<Sector>): Client {
    Client(NotRunning, NO_RESYNC, false, Up, Completed, false, false, {}, saved, 0, 0, rows, Chunk(0, 0), target, 0)
  }

  function Zeros(geo: Geometry): seq<Sector> { seq(geo.cap, i => 0) }

  function Ones(geo: Geometry): seq<Sector> { seq(geo.cap, i => 1) }

  /** The bitmap file still holds an earlier bitmap, only grain 0: the daemon crashes at once, and finishes
      that one instead. */
  lemma LosesWithStaleBitmap(geo: Geometry, rows: seq<Row>, sent: set<nat>, x: nat) returns (after: seq<Action>)
    requires geo.Valid() && !FirstWordMarked(sent) && forall g :: g in sent ==> g < geo.bits
    requires forall i :: 0 <= i < |rows| ==> rows[i].state == Completed
    requires x < geo.cap && geo.GrainOf(x) in sent
    ensures var c := WaitingClient(rows, {0}, Zeros(geo));
            && Reached(geo, rows, sent, Ones(geo), c, [])
            && OneOpenRow(During(geo, sent, Ones(geo), c, []).rows)
            && !SurvivesAlone(geo, Ones(geo), sent, During(geo, sent, Ones(geo), c, []), after)
  {
    var snap, c := Ones(geo), WaitingClient(rows, {0}, Zeros(geo));
    var b := Begin(LoadBitmap(c, sent), NO_RESYNC);
    EmptyRun(geo, snap, b);
    hide Possible, After;
    assert b.rows[|rows|].state != Completed;
    assert FirstOpen(b.rows) == |rows| && OneOpenRow(b.rows);
    var e := Step(geo, snap, b, Crash);
    after := RunToCompletion(geo, snap, e);
    assert After(geo, snap, e, after).target[x] == 0;
  }

  /** A daemon that crashed while paused comes back where the first row stands: resumed, it finishes the round
      from there. */
  lemma FinishesFromRow(geo: Geometry, snap: seq<Sector>, m: Client) returns (after: seq<Action>)
    requires Fits(geo, snap, m) && m.begun && m.paused && m.mode == NO_RESYNC && m.bitmap == m.saved
    requires m.rows != [] && m.rows[0].state == Pause && m.rows[0].pos < geo.bits
    ensures var e := Step(geo, snap, m, Crash);
            && Possible(geo, snap, e, after) && After(geo, snap, e, after).rep == Completed
            && forall x: nat :: x < geo.cap && geo.GrainOf(x) < m.rows[0].pos ==>
                 After(geo, snap, e, after).target[x] == m.target[x]
  {
    hide Possible, After;
    assert FirstOpen(m.rows) == 0;
    var e := Step(geo, snap, m, Crash);
    EmptyRun(geo, snap, e);
    var f := Extend(geo, snap, e, [], Tick);
    f := Extend(geo, snap, e, [] + [Tick], Tick);
    f := Extend(geo, snap, e, [] + [Tick] + [Tick], AskResume);
    var first := [] + [Tick] + [Tick] + [AskResume];
    var second := RunToCompletion(geo, snap, f);
    Concat(geo, snap, e, first, second);
    after := first + second;
  }

  /** The oldest row stands past a grain of the round: paused after its first two grains, the round restarts
      there after a crash and skips the grain, even with one thread. */
  lemma LosesWithOlderRow(geo: Geometry, rows: seq<Row>, sent: set<nat>, x: nat)
    returns (before: seq<Action>, after: seq<Action>)
    requires geo.Valid() && FirstWordMarked(sent) && forall g :: g in sent ==> g < geo.bits
    requires forall i :: 0 <= i < |rows| ==> rows[i].state == Completed && rows[i].pos < geo.bits
    requires rows != [] && x < geo.cap && geo.GrainOf(x) in sent && 2 <= geo.GrainOf(x) < rows[0].pos
    ensures var c := WaitingClient(rows, {}, Zeros(geo));
            && Reached(geo, rows, sent, Ones(geo), c, before)
            && !SurvivesAlone(geo, Ones(geo), sent, During(geo, sent, Ones(geo), c, before), after)
  {
    var snap, c := Ones(geo), WaitingClient(rows, {}, Zeros(geo));
    var b := Begin(LoadBitmap(c, sent), NO_RESYNC);
    hide Possible, After, FirstWordMarked;
    before := RunTo(geo, snap, b, 2);
    assert b.rows[0] == rows[0];
    var m := Extend(geo, snap, b, before, AskPause);
    before := before + [AskPause];
    after := FinishesFromRow(geo, snap, m);
    assert m.target[x] == 0;
  }

  /** Such rows are what earlier rounds leave: a first round for grain g leaves its row at g. */
  lemma FirstRoundLeavesRow(geo: Geometry, snap: seq<Sector>, c: Client, g: nat) returns (actions: seq<Action>)
    requires Fits(geo, snap, c) && Ready(geo, c) && !c.paused && c.rows == [] && c.bitmap == {g} && g < geo.bits
    ensures Possible(geo, snap, Begin(c, NO_RESYNC), actions)
    ensures var d := After(geo, snap, Begin(c, NO_RESYNC), actions);
            d.rep == Completed && d.rows == [Row(g, Completed)] && d.last == 0
  {
    var b := Begin(c, NO_RESYNC);
    hide Possible, After;
    var first := RunTo(geo, snap, b, g);
    var d := After(geo, snap, b, first);
    var second := OverGrain(geo, snap, d);
    Concat(geo, snap, b, first, second);
    var e := After(geo, snap, b, first + second);
    assert e.rows == [Row(g, InProgress)];
    var third := RunTo(geo, snap, e, geo.bits);
    Concat(geo, snap, b, first + second, third);
    actions := first + second + third;
    d := Extend(geo, snap, b, actions, Tick);
    d := Extend(geo, snap, b, actions + [Tick], Tick);
    d := Extend(geo, snap, b, actions + [Tick] + [Tick], Tick);
    actions := actions + [Tick] + [Tick] + [Tick];
    assert d.rows == [Row(g, Completed)];
  }

  /** The run brings a second open row before anything is copied from grain g on. */
  ghost predicate SecondRowBefore(geo: Geometry, snap: seq<Sector>, b: Client, actions: seq<Action>, g: nat)
    requires Fits(geo, snap, b)
  {
    && Possible(geo, snap, b, actions)
    && var m := After(geo, snap, b, actions);
       && m.begun && !OneOpenRow(m.rows)
       && forall x: nat :: x < geo.cap && geo.GrainOf(x) >= g ==> m.target[x] == b.target[x]
  }

  /** The link fails in grain 0 or 1, while the position is 0: recovery adds a second row. */
  lemma SecondRowByFailure(geo: Geometry, snap: seq<Sector>, b: Client, g: nat) returns (actions: seq<Action>)
    requires Fits(geo, snap, b) && b.thread == Head(0) && b.begun && !b.paused && b.last == 0 && b.mode == NO_RESYNC
    requires g < 2 && g < geo.bits && g in b.bitmap && (g == 1 ==> 0 !in b.bitmap)
    requires b.rows != [] && b.rows[|b.rows| - 1] == Row(0, InProgress)
    requires forall i :: 0 <= i < |b.rows| - 1 ==> b.rows[i].state == Completed
    ensures SecondRowBefore(geo, snap, b, actions, g)
  {
    hide Possible, After;
    actions := RunTo(geo, snap, b, g);
    var m := Extend(geo, snap, b, actions, Tick);
    m := Extend(geo, snap, b, actions + [Tick], LinkFails);
    m := Extend(geo, snap, b, actions + [Tick] + [LinkFails], Recover);
    actions := actions + [Tick] + [LinkFails] + [Recover];
    var k := |b.rows| - 1;
    assert m.rows[k] == Row(0, InProgress) && m.rows[k + 1] == Row(0, InProgress);
    assert FirstOpen(m.rows) == k;
  }

  /** A pause after clean grains, a crash back to position 0, and a resume there, which adds a second row. */
  lemma SecondRowByResume(geo: Geometry, snap: seq<Sector>, b: Client) returns (actions: seq<Action>)
    requires Fits(geo, snap, b) && b.thread == Head(0) && b.begun && !b.paused && b.last == 0 && b.mode == NO_RESYNC
    requires geo.bits > 1 && 0 !in b.bitmap && 1 !in b.bitmap && b.saved == b.bitmap && b.outage == Up
    requires b.rep == InProgress && b.rows == [Row(0, InProgress)] && b.persisted == 0
    ensures SecondRowBefore(geo, snap, b, actions, 2)
  {
    hide Possible, After;
    actions := RunTo(geo, snap, b, 2);
    var m := Extend(geo, snap, b, actions, AskPause);
    m := Extend(geo, snap, b, actions + [AskPause], Crash);
    m := Extend(geo, snap, b, actions + [AskPause] + [Crash], Tick);
    m := Extend(geo, snap, b, actions + [AskPause] + [Crash] + [Tick], Tick);
    m := Extend(geo, snap, b, actions + [AskPause] + [Crash] + [Tick] + [Tick], AskResume);
    actions := actions + [AskPause] + [Crash] + [Tick] + [Tick] + [AskResume];
    assert m.rows == [Row(0, Resume), Row(0, InProgress)];
    assert FirstOpen(m.rows) == 0 && m.rows[1].state != Completed;
  }

  /** A pause after clean grains reopens the rows of earlier rounds. */
  lemma OlderRowsByPause(geo: Geometry, snap: seq<Sector>, b: Client) returns (actions: seq<Action>)
    requires Fits(geo, snap, b) && b.thread == Head(0) && b.begun && !b.paused && b.last == 0 && b.mode == NO_RESYNC
    requires geo.bits > 1 && 0 !in b.bitmap && 1 !in b.bitmap && |b.rows| > 1
    ensures SecondRowBefore(geo, snap, b, actions, 2)
  {
    hide Possible, After;
    actions := RunTo(geo, snap, b, 2);
    var m := Extend(geo, snap, b, actions, AskPause);
    actions := actions + [AskPause];
    assert FirstOpen(m.rows) == 0 && m.rows[1].state != Completed;
    assert !OneOpenRow(m.rows);
  }

  lemma WaitingBegins(geo: Geometry, rows: seq<Row>, sent: set<nat>)
    requires geo.Valid() && FirstWordMarked(sent) && forall g :: g in sent ==> g < geo.bits
    ensures var c := WaitingClient(rows, {}, Zeros(geo));
            && Beginning(geo, rows, sent, Ones(geo), c)
            && Begin(LoadBitmap(c, sent), NO_RESYNC) ==
               c.(thread := Head(0), begun := true, rep := InProgress, loaded := true, bitmap := sent, saved := sent,
                  rows := rows + [Row(0, InProgress)])
  {
    hide FirstWordMarked;
  }

  lemma StillBefore(geo: Geometry, snap: seq<Sector>, b: Client, actions: seq<Action>, g: nat, h: nat)
    requires Fits(geo, snap, b) && SecondRowBefore(geo, snap, b, actions, g) && g <= h
    ensures SecondRowBefore(geo, snap, b, actions, h)
  {
    hide Possible, After, OneOpenRow;
  }

  /** In every case a second row opens before anything is copied. */
  lemma SecondRow(geo: Geometry, snap: seq<Sector>, b: Client, h: nat) returns (actions: seq<Action>)
    requires Fits(geo, snap, b) && b.thread == Head(0) && b.begun && !b.paused && b.last == 0 && b.mode == NO_RESYNC
    requires b.saved == b.bitmap && b.outage == Up && b.rep == InProgress && b.persisted == 0
    requires b.rows != [] && b.rows[|b.rows| - 1] == Row(0, InProgress)
    requires forall i :: 0 <= i < |b.rows| - 1 ==> b.rows[i].state == Completed
    requires h in b.bitmap && h < geo.bits
    ensures SecondRowBefore(geo, snap, b, actions, h)
  {
    hide SecondRowBefore;
    var g := if 0 in b.bitmap then 0 else if 1 in b.bitmap then 1 else 2;
    if g < 2 {
      actions := SecondRowByFailure(geo, snap, b, g);
    } else if |b.rows| == 1 {
      assert b.rows == [Row(0, InProgress)];
      actions := SecondRowByResume(geo, snap, b);
    } else {
      actions := OlderRowsByPause(geo, snap, b);
    }
    StillBefore(geo, snap, b, actions, g, h);
  }

  /** So any round that covers a sector can come to have several open rows, with that sector still to copy. */
  lemma SeveralRows(geo: Geometry, rows: seq<Row>, sent: set<nat>, x: nat) returns (before: seq<Action>)
    requires geo.Valid() && FirstWordMarked(sent) && forall g :: g in sent ==> g < geo.bits
    requires forall i :: 0 <= i < |rows| ==> rows[i].state == Completed
    requires x < geo.cap && geo.GrainOf(x) in sent
    ensures var c := WaitingClient(rows, {}, Zeros(geo));
            && Reached(geo, rows, sent, Ones(geo), c, before)
            && var m := During(geo, sent, Ones(geo), c, before); !OneOpenRow(m.rows) && m.target[x] == 0
  {
    var c := WaitingClient(rows, {}, Zeros(geo));
    var b := Begin(LoadBitmap(c, sent), NO_RESYNC);
    WaitingBegins(geo, rows, sent);
    hide Possible, After, FirstWordMarked, OneOpenRow, Step, FirstOpen, Beginning, Begin, LoadBitmap;
    GrainInBitmap(geo, x);
    before := SecondRow(geo, Ones(geo), b, geo.GrainOf(x));
  }

  // ---------------------------------------------------------------- which rounds survive

  /** A round survives every crash that finds one open row if and only if it covers no sector or its bitmap reaches
      the file. */
  lemma {:induction false} LoneCrashesAreSurvivedIff(geo: Geometry, rows: seq<Row>, sent: set<nat>)
    requires geo.Valid() && forall g :: g in sent ==> g < geo.bits
    requires forall i :: 0 <= i < |rows| ==> rows[i].state == Completed && rows[i].pos < geo.bits
    ensures LoneCrashesAreSurvived(geo, rows, sent) <==> !CoversSector(geo, sent) || FirstWordMarked(sent)
  {
    hide Ready, LoadBitmap, Possible, During, SurvivesAlone, SurvivesTogether, FirstWordMarked, OneOpenRow;
    if !CoversSector(geo, sent) {
      NothingToLose(geo, rows, sent);
    } else if !FirstWordMarked(sent) {
      var x: nat :| x < geo.cap && geo.GrainOf(x) in sent;
      var after := LosesWithStaleBitmap(geo, rows, sent, x);
    } else {
      forall snap, c, before | Reached(geo, rows, sent, snap, c, before) && OneOpenRow(During(geo, sent, snap, c, before).rows)
        ensures SurvivesCrash(geo, snap, sent, During(geo, sent, snap, c, before))
      {
        GuardIsOneOpenRow(geo, rows, sent, snap, c, before);
        LoneCrashIsSafe(geo, snap, sent, During(geo, sent, snap, c, before));
      }
    }
  }

  /** With nothing covered every crash is survived. */
  lemma NothingToLose(geo: Geometry, rows: seq<Row>, sent: set<nat>)
    requires geo.Valid() && !CoversSector(geo, sent)
    ensures CrashesAreSurvived(geo, rows, sent) && LoneCrashesAreSurvived(geo, rows, sent)
    ensures FirstRowWillDo(geo, rows, sent)
  {
    hide Possible, After, Turns, Step, OneOpenRow, FirstOpen;
  }

  /** One thread at the position of the first open row does for every crash if and only if the round covers no
      sector, or its bitmap reaches the file and the oldest row stands past none of its grains but the first two. */
  lemma {:induction false} FirstRowWillDoIff(geo: Geometry, rows: seq<Row>, sent: set<nat>)
    requires geo.Valid() && forall g :: g in sent ==> g < geo.bits
    requires forall i :: 0 <= i < |rows| ==> rows[i].state == Completed && rows[i].pos < geo.bits
    ensures FirstRowWillDo(geo, rows, sent) <==>
              !CoversSector(geo, sent) || (FirstWordMarked(sent) && OldestRowHarmless(geo, rows, sent))
  {
    hide Ready, LoadBitmap, Possible, During, SurvivesAlone, FirstWordMarked;
    if !CoversSector(geo, sent) {
      NothingToLose(geo, rows, sent);
    } else if !FirstWordMarked(sent) {
      var x: nat :| x < geo.cap && geo.GrainOf(x) in sent;
      var after := LosesWithStaleBitmap(geo, rows, sent, x);
    } else if !OldestRowHarmless(geo, rows, sent) {
      var x: nat :| x < geo.cap && geo.GrainOf(x) in sent && 2 <= geo.GrainOf(x) < rows[0].pos;
      var before, after := LosesWithOlderRow(geo, rows, sent, x);
    } else {
      forall snap, c, before, after | Reached(geo, rows, sent, snap, c, before)
        ensures SurvivesAlone(geo, snap, sent, During(geo, sent, snap, c, before), after)
      {
        SurvivesIfRestartable(geo, rows, sent, snap, c, before, after);
      }
    }
  }

  /** No round that covers a sector survives every crash: each can come to have several open rows. */
  lemma {:induction false} CrashesAreSurvivedIff(geo: Geometry, rows: seq<Row>, sent: set<nat>)
    requires geo.Valid() && forall g :: g in sent ==> g < geo.bits
    requires forall i :: 0 <= i < |rows| ==> rows[i].state == Completed && rows[i].pos < geo.bits
    ensures CrashesAreSurvived(geo, rows, sent) <==> !CoversSector(geo, sent)
  {
    hide Reached, During, SurvivesAlone, SurvivesTogether, FirstWordMarked, OneOpenRow;
    if !CoversSector(geo, sent) {
      NothingToLose(geo, rows, sent);
    } else {
      var x: nat :| x < geo.cap && geo.GrainOf(x) in sent;
      if !FirstWordMarked(sent) {
        var after := LosesWithStaleBitmap(geo, rows, sent, x);
      } else {
        var before := SeveralRows(geo, rows, sent, x);
        var c := WaitingClient(rows, {}, Zeros(geo));
        CrashIsSurvivedIff(geo, rows, sent, Ones(geo), c, before);
      }
    }
  }
}
