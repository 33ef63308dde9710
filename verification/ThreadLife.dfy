/** What a resync thread does with what it meets: a pause command that comes in, an error of the transfer at hand.
    Its looks at the world are numbered, and everything it does is determined by the answers. */
module ThreadLife {
  import opened Geometry
  import opened ResyncSteps
  import opened Resume

  /** What the thread meets at one place where it looks at the world: nothing special, a pause command
      that has just come in, or an error of the transfer at hand. */
  datatype Signal = Proceed | PauseComes | LinkError | DiskError

  function SignalAt(env: seq<Signal>, n: nat): Signal {
    if n < |env| then env[n] else Proceed
  }

  /** The thread looks before every test for a pause and at every transfer. */
  predicate Looks(geo: Geometry, t: Thread)
    requires geo.grain > 0
  {
    t != NotRunning && (t.InGrain? ==> t.chunk < geo.Chunks())
  }

  /** The pause command may be what has come in. */
  function Met(geo: Geometry, snap: seq<Sector>, c: Client, s: Signal): (d: Client)
    requires Fits(geo, snap, c)
    ensures Fits(geo, snap, d)
  {
    if s == PauseComes then Step(geo, snap, c, AskPause) else c
  }

  /** An error is met only by a transfer, and a paused thread makes none. */
  function Chosen(geo: Geometry, c: Client, s: Signal): Action
    requires geo.grain > 0
  {
    if !c.thread.InGrain? || c.thread.chunk >= geo.Chunks() || c.paused then Tick
    else if s == LinkError then LinkFails
    else if s == DiskError then WriteFails
    else Tick
  }

  /** A client, and how often its thread has looked. */
  datatype Moment = Moment(c: Client, looks: nat)

  function Turn(geo: Geometry, snap: seq<Sector>, m: Moment, env: seq<Signal>): (r: Moment)
    requires Fits(geo, snap, m.c)
    ensures Fits(geo, snap, r.c)
  {
    if m.c.thread == NotRunning then m
    else if !Looks(geo, m.c.thread) then Moment(Step(geo, snap, m.c, Tick), m.looks)
    else
      var s := SignalAt(env, m.looks);
      var d := Met(geo, snap, m.c, s);
      Moment(Step(geo, snap, d, Chosen(geo, d, s)), m.looks + 1)
  }

  /** After j turns. */
  function Turns(geo: Geometry, snap: seq<Sector>, c: Client, env: seq<Signal>, j: nat): (r: Moment)
    requires Fits(geo, snap, c)
    ensures Fits(geo, snap, r.c)
  {
    if j == 0 then Moment(c, 0) else Turn(geo, snap, Turns(geo, snap, c, env, j - 1), env)
  }

  /** After j turns it has looked once more, and not acted yet. */
  ghost predicate HasLooked(geo: Geometry, snap: seq<Sector>, c: Client, env: seq<Signal>, j: nat, look: nat, d: Client) {
    && Fits(geo, snap, c)
    && var m := Turns(geo, snap, c, env, j);
       && m.looks == look && Looks(geo, m.c.thread)
       && d == Met(geo, snap, m.c, SignalAt(env, look))
  }

  /** A step ends the turn. */
  lemma Acted(geo: Geometry, snap: seq<Sector>, c: Client, env: seq<Signal>, j: nat, look: nat, d: Client)
    requires HasLooked(geo, snap, c, env, j, look, d)
    ensures Fits(geo, snap, c) && Fits(geo, snap, d)
    ensures Turns(geo, snap, c, env, j + 1) == Moment(Step(geo, snap, d, Chosen(geo, d, SignalAt(env, look))), look + 1)
  {
    hide Step, Met, Chosen, SignalAt;
    assert Turns(geo, snap, c, env, j + 1) == Turn(geo, snap, Turns(geo, snap, c, env, j), env);
  }

  /** The thread of c, meeting env, comes to its end in d. */
  ghost predicate EndsAs(geo: Geometry, snap: seq<Sector>, c: Client, env: seq<Signal>, d: Client)
    requires Fits(geo, snap, c)
  {
    d.thread == NotRunning && exists j: nat :: Turns(geo, snap, c, env, j).c == d
  }

  lemma {:induction false} EndStays(geo: Geometry, snap: seq<Sector>, c: Client, env: seq<Signal>, i: nat, j: nat)
    requires Fits(geo, snap, c) && i <= j && Turns(geo, snap, c, env, i).c.thread == NotRunning
    ensures Turns(geo, snap, c, env, j) == Turns(geo, snap, c, env, i)
  {
    if i < j {
      EndStays(geo, snap, c, env, i, j - 1);
      hide Step;
    }
  }

  /** What the thread meets determines how it ends. */
  lemma {:induction false} OneEnd(geo: Geometry, snap: seq<Sector>, c: Client, env: seq<Signal>, d: Client, e: Client)
    requires Fits(geo, snap, c) && EndsAs(geo, snap, c, env, d) && EndsAs(geo, snap, c, env, e)
    ensures d == e
  {
    hide Turns;
    var i: nat :| Turns(geo, snap, c, env, i).c == d;
    var j: nat :| Turns(geo, snap, c, env, j).c == e;
    EndStays(geo, snap, c, env, i, i + j);
    EndStays(geo, snap, c, env, j, i + j);
  }

  // ---------------------------------------------------------------- the threads of a round

  /** One thread, as it was started and as it ended. */
  datatype Life = Life(start: Client, end: Client)

  /** What restarts a round that has stopped. */
  function Restarting(c: Client): Action {
    if c.outage != Up then Recover else AskResume
  }

  /** One thread after another from c, the n-th meeting envs[n], and those beyond nothing. */
  ghost predicate Lives(geo: Geometry, snap: seq<Sector>, c: Client, envs: seq<seq<Signal>>, lives: seq<Life>) {
    && (forall n :: 0 <= n < |lives| ==>
          && Fits(geo, snap, lives[n].start) && Fits(geo, snap, lives[n].end)
          && EndsAs(geo, snap, lives[n].start, if n < |envs| then envs[n] else [], lives[n].end))
    && (lives != [] ==> lives[0].start == c)
    && (forall n :: 0 < n < |lives| ==>
          lives[n].start == Step(geo, snap, lives[n - 1].end, Restarting(lives[n - 1].end)))
  }

  lemma OneMoreLife(geo: Geometry, snap: seq<Sector>, c: Client, envs: seq<seq<Signal>>, lives: seq<Life>, life: Life)
    requires Lives(geo, snap, c, envs, lives) && Fits(geo, snap, life.start) && Fits(geo, snap, life.end)
    requires EndsAs(geo, snap, life.start, if |lives| < |envs| then envs[|lives|] else [], life.end)
    requires if lives == [] then life.start == c
             else life.start == Step(geo, snap, lives[|lives| - 1].end, Restarting(lives[|lives| - 1].end))
    ensures Lives(geo, snap, c, envs, lives + [life])
  {
    hide EndsAs, Step, Restarting;
  }

  // ---------------------------------------------------------------- turns are steps

  lemma TurnIsRun(geo: Geometry, snap: seq<Sector>, c: Client, m: Moment, env: seq<Signal>, before: seq<Action>)
    returns (actions: seq<Action>)
    requires Fits(geo, snap, c) && Possible(geo, snap, c, before) && After(geo, snap, c, before) == m.c
    ensures Possible(geo, snap, c, actions) && After(geo, snap, c, actions) == Turn(geo, snap, m, env).c
    ensures Calm(env) && OnlyTicks(before) ==> OnlyTicks(actions)
  {
    hide Possible, After, Step;
    actions := before;
    if m.c.thread != NotRunning {
      var s := SignalAt(env, m.looks);
      var d := m.c;
      if Looks(geo, m.c.thread) && s == PauseComes {
        d := Extend(geo, snap, c, actions, AskPause);
        actions := actions + [AskPause];
        AskingStays(geo, snap, m.c);
      }
      var a := if Looks(geo, m.c.thread) then Chosen(geo, d, s) else Tick;
      d := Extend(geo, snap, c, actions, a);
      actions := actions + [a];
    }
  }

  lemma AskingStays(geo: Geometry, snap: seq<Sector>, c: Client)
    requires Fits(geo, snap, c)
    ensures Step(geo, snap, c, AskPause).thread == c.thread
  {
  }

  /** Whatever the thread meets, it does a run of the step system, and if nothing interferes the uninterrupted one. */
  lemma {:induction false} TurnsAreRun(geo: Geometry, snap: seq<Sector>, c: Client, env: seq<Signal>, j: nat)
    returns (actions: seq<Action>)
    requires Fits(geo, snap, c)
    ensures Possible(geo, snap, c, actions) && After(geo, snap, c, actions) == Turns(geo, snap, c, env, j).c
    ensures Calm(env) ==> OnlyTicks(actions)
  {
    hide Turn;
    if j == 0 {
      EmptyRun(geo, snap, c);
      actions := [];
    } else {
      var front := TurnsAreRun(geo, snap, c, env, j - 1);
      actions := TurnIsRun(geo, snap, c, Turns(geo, snap, c, env, j - 1), env, front);
    }
  }

  /** Nothing interferes. */
  predicate Calm(env: seq<Signal>) {
    forall i :: 0 <= i < |env| ==> env[i] == Proceed
  }

  predicate PauseAmong(env: seq<Signal>) {
    PauseComes in env
  }

  // ---------------------------------------------------------------- what comes of a signal

  /** On the way out because of a pause, as d but for the place. */
  predicate PausedOut(c: Client, d: Client) {
    && c.paused && c.rep == Pause
    && c.target == d.target && c.outage == d.outage && c.last == d.last && c.persisted == d.persisted
    && c.asked == d.asked
    && (c.thread.Head? || c.thread == OutOfLoop || c.thread == NotRunning)
  }

  lemma PausedTurn(geo: Geometry, snap: seq<Sector>, m: Moment, env: seq<Signal>, d: Client)
    requires Fits(geo, snap, m.c) && PausedOut(m.c, d)
    ensures PausedOut(Turn(geo, snap, m, env).c, d)
  {
    hide SetStates;
  }

  lemma {:induction false} PausedTurns(geo: Geometry, snap: seq<Sector>, c: Client, env: seq<Signal>, i: nat, j: nat,
                                       d: Client)
    requires Fits(geo, snap, c) && i <= j && PausedOut(Turns(geo, snap, c, env, i).c, d)
    ensures PausedOut(Turns(geo, snap, c, env, j).c, d)
  {
    hide Turn, PausedOut;
    if i < j {
      PausedTurns(geo, snap, c, env, i, j - 1, d);
      PausedTurn(geo, snap, Turns(geo, snap, c, env, j - 1), env, d);
    }
  }

  /** The thread looks, above the last test for a pause, and finds that the command has come. */
  predicate MeetsPause(geo: Geometry, m: Moment, env: seq<Signal>)
    requires geo.grain > 0
  {
    Looks(geo, m.c.thread) && m.c.thread != Ending && SignalAt(env, m.looks) == PauseComes && m.c.last > 0
  }

  /** The positions once it has moved on: a grain it was in counts as passed, and the header names the chunk at
      hand. */
  function PassedBy(c: Client): Client {
    if c.thread.InGrain? then
      c.(last := c.thread.bit, persisted := c.thread.bit, asked := Chunk(c.thread.bit, c.thread.chunk))
    else c
  }

  lemma PauseTurn(geo: Geometry, snap: seq<Sector>, m: Moment, env: seq<Signal>)
    requires Fits(geo, snap, m.c) && MeetsPause(geo, m, env)
    ensures PausedOut(Turn(geo, snap, m, env).c, PassedBy(m.c))
  {
    hide SetStates, MovePosition;
  }

  /** A pause met above the last test for one stops the thread: it copies nothing more, and the round is paused and
      not completed. */
  lemma {:induction false} PauseStops(geo: Geometry, snap: seq<Sector>, c: Client, env: seq<Signal>, i: nat, e: Client)
    requires Fits(geo, snap, c) && EndsAs(geo, snap, c, env, e)
    requires MeetsPause(geo, Turns(geo, snap, c, env, i), env)
    ensures var d := Turns(geo, snap, c, env, i).c;
            && e.paused && e.rep == Pause && e.thread == NotRunning && e.outage == d.outage && e.target == d.target
            && e.last == (if d.thread.InGrain? then d.thread.bit else d.last)
            && e.asked == (if d.thread.InGrain? then Chunk(d.thread.bit, d.thread.chunk) else d.asked)
  {
    var m := Turns(geo, snap, c, env, i);
    PauseTurn(geo, snap, m, env);
    assert PausedOut(Turns(geo, snap, c, env, i + 1).c, PassedBy(m.c));
    hide Turns, Turn, Step;
    var j: nat :| Turns(geo, snap, c, env, j).c == e;
    if j <= i {
      EndStays(geo, snap, c, env, j, i);
    } else {
      PausedTurns(geo, snap, c, env, i + 1, j, PassedBy(m.c));
    }
  }

  /** A pause that comes while the position is 0 is as good as none. */
  lemma {:induction false} PauseIgnored(geo: Geometry, snap: seq<Sector>, m: Moment, env: seq<Signal>)
    requires Fits(geo, snap, m.c) && m.looks < |env| && env[m.looks] == PauseComes && m.c.last == 0
    ensures Turn(geo, snap, m, env) == Turn(geo, snap, m, env[m.looks := Proceed])
  {
    hide TickStep;
  }

  lemma LateTurn(geo: Geometry, snap: seq<Sector>, m: Moment, env: seq<Signal>)
    requires Fits(geo, snap, m.c) && m.c.thread == Ending && m.c.rep != Completed
    requires SignalAt(env, m.looks) == PauseComes && m.c.last > 0
    ensures var e := Turn(geo, snap, m, env).c;
            && e.thread == NotRunning && e.rep == Completed && e.last == m.c.last && !e.paused
            && e.target == m.c.target
  {
    hide SetStates, SignalAt;
    var d := Met(geo, snap, m.c, PauseComes);
    assert d.paused && d.last == m.c.last && d.rep == Pause && d.target == m.c.target && d.thread == Ending;
    assert Step(geo, snap, d, Tick) == Terminate(d);
    hide Step, Met;
  }

  /** A pause met below the last test leaves the round completed, with its position. */
  lemma {:induction false} PauseTooLate(geo: Geometry, snap: seq<Sector>, c: Client, env: seq<Signal>, i: nat, e: Client)
    requires Fits(geo, snap, c) && EndsAs(geo, snap, c, env, e)
    requires var m := Turns(geo, snap, c, env, i);
             && m.c.thread == Ending && m.c.rep != Completed
             && SignalAt(env, m.looks) == PauseComes && m.c.last > 0
    ensures var d := Turns(geo, snap, c, env, i).c;
            e.thread == NotRunning && e.rep == Completed && e.last == d.last && !e.paused && e.target == d.target
  {
    LateTurn(geo, snap, Turns(geo, snap, c, env, i), env);
    var m := Turn(geo, snap, Turns(geo, snap, c, env, i), env);
    assert m == Turns(geo, snap, c, env, i + 1);
    hide Turns, Turn, EndsAs;
    EndsHere(geo, snap, c, env, i + 1, e);
  }

  lemma EndsHere(geo: Geometry, snap: seq<Sector>, c: Client, env: seq<Signal>, i: nat, e: Client)
    requires Fits(geo, snap, c) && EndsAs(geo, snap, c, env, e) && Turns(geo, snap, c, env, i).c.thread == NotRunning
    ensures e == Turns(geo, snap, c, env, i).c
  {
    hide Turns;
    OneEnd(geo, snap, c, env, e, Turns(geo, snap, c, env, i).c);
  }

  lemma ErrorTurn(geo: Geometry, snap: seq<Sector>, m: Moment, env: seq<Signal>)
    requires Fits(geo, snap, m.c) && m.c.thread.InGrain? && m.c.thread.chunk < geo.Chunks() && !m.c.paused
    requires SignalAt(env, m.looks) in {LinkError, DiskError}
    ensures var e := Turn(geo, snap, m, env).c;
            && e.outage == (if SignalAt(env, m.looks) == LinkError then LinkDown else DiskDown)
            && e.thread == NotRunning && !e.paused && e.target == m.c.target && e.rep == m.c.rep
            && e.last == m.c.last && e.persisted == m.c.persisted && e.rows == m.c.rows
            && e.asked == Chunk(m.c.thread.bit, m.c.thread.chunk)
  {
    hide TickStep, SignalAt;
  }

  /** An error at a transfer ends the thread there, with the outage it stands for; nothing more is copied, and the
      positions stay. */
  lemma {:induction false} ErrorStops(geo: Geometry, snap: seq<Sector>, c: Client, env: seq<Signal>, i: nat, e: Client)
    requires Fits(geo, snap, c) && EndsAs(geo, snap, c, env, e)
    requires var m := Turns(geo, snap, c, env, i);
             && m.c.thread.InGrain? && m.c.thread.chunk < geo.Chunks() && !m.c.paused
             && SignalAt(env, m.looks) in {LinkError, DiskError}
    ensures var m := Turns(geo, snap, c, env, i);
            && e.outage == (if SignalAt(env, m.looks) == LinkError then LinkDown else DiskDown)
            && e.thread == NotRunning && !e.paused && e.target == m.c.target && e.rep == m.c.rep
            && e.last == m.c.last && e.persisted == m.c.persisted && e.rows == m.c.rows
            && e.asked == Chunk(m.c.thread.bit, m.c.thread.chunk)
  {
    ErrorTurn(geo, snap, Turns(geo, snap, c, env, i), env);
    var m := Turn(geo, snap, Turns(geo, snap, c, env, i), env);
    assert m == Turns(geo, snap, c, env, i + 1);
    hide Turns, Turn, EndsAs;
    EndsHere(geo, snap, c, env, i + 1, e);
  }

  /** The state is as it was but for what is among the signals met. */
  ghost predicate OnlyWhatWasMet(c: Client, env: seq<Signal>, d: Client) {
    && (d.outage == c.outage || (d.outage == LinkDown && LinkError in env) || (d.outage == DiskDown && DiskError in env))
    && (d.paused && !c.paused ==> PauseComes in env)
    && (d.thread == NotRunning ==>
          d.paused || d.rep == Completed || (d.outage == LinkDown && LinkError in env) || (d.outage == DiskDown && DiskError in env))
  }

  lemma StepMarks(geo: Geometry, snap: seq<Sector>, c: Client, a: Action)
    requires Fits(geo, snap, c) && c.thread != NotRunning && a in {Tick, LinkFails, WriteFails, AskPause}
    ensures var d := Step(geo, snap, c, a);
            && d.outage == (match a case LinkFails => LinkDown case WriteFails => DiskDown case _ => c.outage)
            && (a == AskPause ==> d.thread == c.thread)
            && (a != AskPause && d.paused ==> c.paused)
            && (a == Tick && d.thread == NotRunning ==> d.paused || d.rep == Completed)
  {
    hide Copied, SetStates, MovePosition;
  }

  lemma TurnOnlyMeets(geo: Geometry, snap: seq<Sector>, c: Client, m: Moment, env: seq<Signal>)
    requires Fits(geo, snap, m.c) && OnlyWhatWasMet(c, env, m.c)
    ensures OnlyWhatWasMet(c, env, Turn(geo, snap, m, env).c)
  {
    hide Step;
    if m.c.thread != NotRunning {
      var s := SignalAt(env, m.looks);
      assert s != Proceed ==> s in env;
      StepMarks(geo, snap, m.c, AskPause);
      var d := if Looks(geo, m.c.thread) then Met(geo, snap, m.c, s) else m.c;
      StepMarks(geo, snap, d, if Looks(geo, m.c.thread) then Chosen(geo, d, s) else Tick);
    }
  }

  /** An outage is marked only by a thread that met the error, a round is paused only by one that met the command, and
      no thread ends without having completed the round or met one of them. */
  lemma {:induction false} OnlyBySignal(geo: Geometry, snap: seq<Sector>, c: Client, env: seq<Signal>, j: nat)
    requires Fits(geo, snap, c) && c.thread != NotRunning
    ensures OnlyWhatWasMet(c, env, Turns(geo, snap, c, env, j).c)
  {
    hide Turn;
    if j > 0 {
      OnlyBySignal(geo, snap, c, env, j - 1);
      TurnOnlyMeets(geo, snap, c, Turns(geo, snap, c, env, j - 1), env);
    }
  }

  /** A thread nothing interferes with, whose round is not completed yet. */
  predicate LeftAlone(c: Client, d: Client) {
    && d.outage == c.outage
    && (c.paused ==> d.paused && d.rep == c.rep)
    && (!c.paused ==> !d.paused && (if d.thread == NotRunning then d.rep == Completed else d.rep == c.rep))
    && (c.paused ==> d.thread.Head? || d.thread.InGrain? || d.thread == OutOfLoop || d.thread == NotRunning)
  }

  lemma CalmTurn(geo: Geometry, snap: seq<Sector>, c: Client, m: Moment, env: seq<Signal>)
    requires Fits(geo, snap, m.c) && LeftAlone(c, m.c) && Calm(env) && c.rep != Completed
    ensures LeftAlone(c, Turn(geo, snap, m, env).c)
  {
    hide Copied, SetStates, MovePosition;
    assert SignalAt(env, m.looks) == Proceed;
  }

  lemma {:induction false} CalmTurns(geo: Geometry, snap: seq<Sector>, c: Client, env: seq<Signal>, j: nat)
    requires Fits(geo, snap, c) && Calm(env) && c.rep != Completed && c.thread.Head?
    ensures LeftAlone(c, Turns(geo, snap, c, env, j).c)
  {
    hide Turn;
    if j > 0 {
      CalmTurns(geo, snap, c, env, j - 1);
      CalmTurn(geo, snap, c, Turns(geo, snap, c, env, j - 1), env);
    }
  }

  // ---------------------------------------------------------------- which look is which

  /** How often a thread that starts at bit p looks before it looks at bit b, if nothing interferes: once for each
      grain, and once for each chunk of a dirty one. */
  function LooksBefore(geo: Geometry, dirty: set<nat>, p: nat, b: nat): nat
    requires geo.grain > 0
  {
    if b <= p then 0
    else LooksBefore(geo, dirty, p, b - 1) + 1 + if b - 1 in dirty then geo.Chunks() else 0
  }

  /** The sector is in a dirty grain from p on that is before (b, k). */
  predicate Behind(geo: Geometry, dirty: set<nat>, p: nat, b: nat, k: nat, x: nat)
    requires geo.grain > 0
  {
    var g := geo.GrainOf(x);
    g in dirty && p <= g && (g < b || (g == b && ChunkOf(geo, x) < k))
  }

  /** A thread that has gone from bit p of c to t without interference. */
  ghost predicate Undisturbed(geo: Geometry, snap: seq<Sector>, c: Client, p: nat, m: Moment, b: nat, k: nat, t: Thread)
    requires Fits(geo, snap, c)
  {
    && Fits(geo, snap, m.c) && m.c.thread == t
    && m.c.mode == c.mode && !m.c.paused && m.c.outage == c.outage && m.c.rep == c.rep && m.c.bitmap == c.bitmap
    && m.c.last == (if b > p then b - 1 else c.last)
    && m.looks == LooksBefore(geo, c.bitmap, p, b) + (if t.InGrain? then 1 + k else 0)
    && forall x: nat :: x < geo.cap ==>
         m.c.target[x] == if Behind(geo, c.bitmap, p, b, k, x) then snap[x] else c.target[x]
  }

  ghost predicate QuietTo(env: seq<Signal>, n: nat) {
    forall i :: 0 <= i < n ==> SignalAt(env, i) == Proceed
  }

  lemma IntoGrain(geo: Geometry, snap: seq<Sector>, c: Client, p: nat, env: seq<Signal>, m: Moment, b: nat)
    requires Fits(geo, snap, c) && c.mode == NO_RESYNC && Undisturbed(geo, snap, c, p, m, b, 0, Head(b)) && b >= p
    requires b < geo.bits && b in c.bitmap && SignalAt(env, m.looks) == Proceed
    ensures Undisturbed(geo, snap, c, p, Turn(geo, snap, m, env), b, 0, InGrain(b, 0))
  {
  }

  lemma OneChunk(geo: Geometry, snap: seq<Sector>, c: Client, p: nat, env: seq<Signal>, m: Moment, b: nat, k: nat)
    requires Fits(geo, snap, c) && Undisturbed(geo, snap, c, p, m, b, k, InGrain(b, k)) && b >= p
    requires b in c.bitmap && k < geo.Chunks() && SignalAt(env, m.looks) == Proceed
    ensures Undisturbed(geo, snap, c, p, Turn(geo, snap, m, env), b, k + 1, InGrain(b, k + 1))
  {
    var d := Turn(geo, snap, m, env).c;
    assert d == Step(geo, snap, m.c, Tick);
    forall x: nat | x < geo.cap
      ensures d.target[x] == if Behind(geo, c.bitmap, p, b, k + 1, x) then snap[x] else c.target[x]
    {
      ChunksPartition(geo, x, b, k);
    }
  }

  lemma OutOfGrain(geo: Geometry, snap: seq<Sector>, c: Client, p: nat, env: seq<Signal>, m: Moment, b: nat)
    requires Fits(geo, snap, c) && b >= p
    requires if b in c.bitmap then Undisturbed(geo, snap, c, p, m, b, geo.Chunks(), InGrain(b, geo.Chunks()))
             else Undisturbed(geo, snap, c, p, m, b, 0, Head(b)) && SignalAt(env, m.looks) == Proceed
    requires b < geo.bits && c.mode == NO_RESYNC
    ensures Undisturbed(geo, snap, c, p, Turn(geo, snap, m, env), b + 1, 0, Head(b + 1))
  {
    forall x: nat | x < geo.cap && geo.GrainOf(x) >= 0
      ensures Behind(geo, c.bitmap, p, b + 1, 0, x) <==> Behind(geo, c.bitmap, p, b, if b in c.bitmap then geo.Chunks() else 0, x)
    {
      ChunksPartition(geo, x, 0, 0);
    }
    hide Behind, Copied;
  }

  /** Looks are counted upwards. */
  lemma {:induction false} LooksGrow(geo: Geometry, dirty: set<nat>, p: nat, a: nat, b: nat)
    requires geo.grain > 0 && a <= b
    ensures LooksBefore(geo, dirty, p, a) <= LooksBefore(geo, dirty, p, b)
  {
    if a < b {
      LooksGrow(geo, dirty, p, a, b - 1);
    }
  }

  /** As long as nothing interferes, the look at bit b comes where the count says, with everything behind copied and
      nothing else. */
  lemma {:induction false} AtHead(geo: Geometry, snap: seq<Sector>, c: Client, env: seq<Signal>, p: nat, b: nat)
    returns (j: nat)
    requires Fits(geo, snap, c) && c.thread == Head(p) && !c.paused && c.mode == NO_RESYNC && p <= b <= geo.bits
    requires QuietTo(env, LooksBefore(geo, c.bitmap, p, b))
    ensures Undisturbed(geo, snap, c, p, Turns(geo, snap, c, env, j), b, 0, Head(b))
    decreases b, 0
  {
    hide Turn, Undisturbed;
    if b == p {
      j := 0;
      AtStart(geo, snap, c, p);
    } else {
      LooksGrow(geo, c.bitmap, p, b - 1, b);
      if b - 1 in c.bitmap {
        j := AtChunk(geo, snap, c, env, p, b - 1, geo.Chunks());
      } else {
        j := AtHead(geo, snap, c, env, p, b - 1);
        UndisturbedLooks(geo, snap, c, p, Turns(geo, snap, c, env, j), b - 1, 0, Head(b - 1));
      }
      OutOfGrain(geo, snap, c, p, env, Turns(geo, snap, c, env, j), b - 1);
      j := j + 1;
    }
  }

  lemma AtStart(geo: Geometry, snap: seq<Sector>, c: Client, p: nat)
    requires Fits(geo, snap, c) && c.thread == Head(p) && !c.paused
    ensures Undisturbed(geo, snap, c, p, Moment(c, 0), p, 0, Head(p))
  {
  }

  lemma UndisturbedLooks(geo: Geometry, snap: seq<Sector>, c: Client, p: nat, m: Moment, b: nat, k: nat, t: Thread)
    requires Fits(geo, snap, c) && Undisturbed(geo, snap, c, p, m, b, k, t)
    ensures m.looks == LooksBefore(geo, c.bitmap, p, b) + (if t.InGrain? then 1 + k else 0)
  {
  }

  /** So does the look at chunk k of a dirty grain. */
  lemma {:induction false} AtChunk(geo: Geometry, snap: seq<Sector>, c: Client, env: seq<Signal>, p: nat, b: nat, k: nat)
    returns (j: nat)
    requires Fits(geo, snap, c) && c.thread == Head(p) && !c.paused && c.mode == NO_RESYNC && p <= b < geo.bits
    requires b in c.bitmap && k <= geo.Chunks() && QuietTo(env, LooksBefore(geo, c.bitmap, p, b) + 1 + k)
    ensures Undisturbed(geo, snap, c, p, Turns(geo, snap, c, env, j), b, k, InGrain(b, k))
    decreases b, k + 1
  {
    hide Turn, Undisturbed;
    if k == 0 {
      j := AtHead(geo, snap, c, env, p, b);
      UndisturbedLooks(geo, snap, c, p, Turns(geo, snap, c, env, j), b, 0, Head(b));
      IntoGrain(geo, snap, c, p, env, Turns(geo, snap, c, env, j), b);
    } else {
      j := AtChunk(geo, snap, c, env, p, b, k - 1);
      UndisturbedLooks(geo, snap, c, p, Turns(geo, snap, c, env, j), b, k - 1, InGrain(b, k - 1));
      OneChunk(geo, snap, c, p, env, Turns(geo, snap, c, env, j), b, k - 1);
    }
    j := j + 1;
  }

  // ---------------------------------------------------------------- from the signals alone

  /** Everything of the dirty grains from p on is copied up to (b, k), and nothing else. */
  ghost predicate CopiedUpTo(geo: Geometry, snap: seq<Sector>, c: Client, p: nat, b: nat, k: nat, target: seq<Sector>)
    requires Fits(geo, snap, c) && |target| == geo.cap
  {
    forall x: nat :: x < geo.cap ==>
      target[x] == if Behind(geo, c.bitmap, p, b, k, x) then snap[x] else c.target[x]
  }

  /** The first thing the thread meets is an error at chunk k of grain b. */
  lemma {:induction false} ErrorAtChunk(geo: Geometry, snap: seq<Sector>, c: Client, env: seq<Signal>, p: nat, b: nat,
                                        k: nat, e: Client)
    requires Fits(geo, snap, c) && c.thread == Head(p) && !c.paused && c.mode == NO_RESYNC && p <= b < geo.bits
    requires b in c.bitmap && k < geo.Chunks() && EndsAs(geo, snap, c, env, e)
    requires QuietTo(env, LooksBefore(geo, c.bitmap, p, b) + 1 + k)
    requires SignalAt(env, LooksBefore(geo, c.bitmap, p, b) + 1 + k) in {LinkError, DiskError}
    ensures e.outage == if SignalAt(env, LooksBefore(geo, c.bitmap, p, b) + 1 + k) == LinkError then LinkDown else DiskDown
    ensures e.thread == NotRunning && !e.paused && e.rep == c.rep && e.last == if b > p then b - 1 else c.last
    ensures |e.target| == geo.cap && CopiedUpTo(geo, snap, c, p, b, k, e.target)
  {
    var j := AtChunk(geo, snap, c, env, p, b, k);
    hide Turns;
    ErrorStops(geo, snap, c, env, j, e);
  }

  /** It is a pause there. */
  lemma {:induction false} PauseAtChunk(geo: Geometry, snap: seq<Sector>, c: Client, env: seq<Signal>, p: nat, b: nat,
                                        k: nat, e: Client)
    requires Fits(geo, snap, c) && c.thread == Head(p) && !c.paused && c.mode == NO_RESYNC && p <= b < geo.bits
    requires b in c.bitmap && k < geo.Chunks() && EndsAs(geo, snap, c, env, e)
    requires QuietTo(env, LooksBefore(geo, c.bitmap, p, b) + 1 + k)
    requires SignalAt(env, LooksBefore(geo, c.bitmap, p, b) + 1 + k) == PauseComes
    requires (if b > p then b - 1 else c.last) > 0
    ensures e.thread == NotRunning && e.paused && e.rep == Pause && e.outage == c.outage && e.last == b
    ensures |e.target| == geo.cap && CopiedUpTo(geo, snap, c, p, b, k, e.target)
  {
    var j := AtChunk(geo, snap, c, env, p, b, k);
    hide Turns;
    PauseStops(geo, snap, c, env, j, e);
  }

  /** It is a pause at the loop's test before grain b, or, at the end, that of the last turn. */
  lemma {:induction false} PauseAtHead(geo: Geometry, snap: seq<Sector>, c: Client, env: seq<Signal>, p: nat, b: nat,
                                       e: Client)
    requires Fits(geo, snap, c) && c.thread == Head(p) && !c.paused && c.mode == NO_RESYNC && p <= b <= geo.bits
    requires EndsAs(geo, snap, c, env, e) && QuietTo(env, LooksBefore(geo, c.bitmap, p, b))
    requires SignalAt(env, LooksBefore(geo, c.bitmap, p, b)) == PauseComes
    requires (if b > p then b - 1 else c.last) > 0
    ensures e.thread == NotRunning && e.paused && e.rep == Pause && e.outage == c.outage
    ensures e.last == if b > p then b - 1 else c.last
    ensures |e.target| == geo.cap && CopiedUpTo(geo, snap, c, p, b, 0, e.target)
  {
    var j := AtHead(geo, snap, c, env, p, b);
    hide Turns;
    PauseStops(geo, snap, c, env, j, e);
  }

  /** It is a pause at the test below the loop. */
  lemma {:induction false} PauseBelowLoop(geo: Geometry, snap: seq<Sector>, c: Client, env: seq<Signal>, p: nat, e: Client)
    requires Fits(geo, snap, c) && c.thread == Head(p) && !c.paused && c.mode == NO_RESYNC
    requires p < geo.bits && geo.bits > 1 && EndsAs(geo, snap, c, env, e)
    requires QuietTo(env, LooksBefore(geo, c.bitmap, p, geo.bits) + 1)
    requires SignalAt(env, LooksBefore(geo, c.bitmap, p, geo.bits) + 1) == PauseComes
    ensures e.thread == NotRunning && e.paused && e.rep == Pause && e.outage == c.outage && e.last == geo.bits - 1
    ensures |e.target| == geo.cap && CopiedUpTo(geo, snap, c, p, geo.bits, 0, e.target)
  {
    hide Turns, EndsAs, Undisturbed, CopiedUpTo, LooksBefore;
    var j := AtHead(geo, snap, c, env, p, geo.bits);
    LeavingTurns(geo, snap, c, env, p, j);
    hide QuietTo, SignalAt;
    PauseStops(geo, snap, c, env, j + 1, e);
  }

  /** It is a pause below that test: the round completes. */
  lemma {:induction false} PauseAtEnd(geo: Geometry, snap: seq<Sector>, c: Client, env: seq<Signal>, p: nat, e: Client)
    requires Fits(geo, snap, c) && c.thread == Head(p) && !c.paused && c.mode == NO_RESYNC && c.rep != Completed
    requires p < geo.bits && geo.bits > 1 && EndsAs(geo, snap, c, env, e)
    requires QuietTo(env, LooksBefore(geo, c.bitmap, p, geo.bits) + 2)
    requires SignalAt(env, LooksBefore(geo, c.bitmap, p, geo.bits) + 2) == PauseComes
    ensures e.thread == NotRunning && !e.paused && e.rep == Completed && e.last == geo.bits - 1
    ensures |e.target| == geo.cap && CopiedUpTo(geo, snap, c, p, geo.bits, 0, e.target)
  {
    hide Turns, EndsAs, Undisturbed, CopiedUpTo, LooksBefore;
    var j := AtHead(geo, snap, c, env, p, geo.bits);
    LeavingTurns(geo, snap, c, env, p, j);
    hide QuietTo, SignalAt, Looks;
    PauseTooLate(geo, snap, c, env, j + 2, e);
  }

  lemma LeavingTurns(geo: Geometry, snap: seq<Sector>, c: Client, env: seq<Signal>, p: nat, j: nat)
    requires Fits(geo, snap, c) && p < geo.bits
    requires Undisturbed(geo, snap, c, p, Turns(geo, snap, c, env, j), geo.bits, 0, Head(geo.bits))
    requires SignalAt(env, LooksBefore(geo, c.bitmap, p, geo.bits)) == Proceed
    ensures var n := Turns(geo, snap, c, env, j + 1); var l := LooksBefore(geo, c.bitmap, p, geo.bits);
            && n.c.thread == OutOfLoop && n.looks == l + 1 && n.c.outage == c.outage && n.c.last == geo.bits - 1 && n.c.rep == c.rep
            && CopiedUpTo(geo, snap, c, p, geo.bits, 0, n.c.target)
            && (SignalAt(env, l + 1) == Proceed ==>
                  Turns(geo, snap, c, env, j + 2) == Moment(n.c.(thread := Ending), l + 2))
  {
    var m := Turns(geo, snap, c, env, j);
    var n := Turn(geo, snap, m, env);
    assert n == Moment(m.c.(thread := OutOfLoop), m.looks + 1);
    assert n == Turns(geo, snap, c, env, j + 1);
    assert Turns(geo, snap, c, env, j + 2) == Turn(geo, snap, n, env);
  }
}
