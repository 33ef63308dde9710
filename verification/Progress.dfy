/** What interruptions cost, and why a round ends. */
module Progress {
  import opened Geometry
  import opened ResyncSteps
  import opened Resume
  import opened Coverage

  // ---------------------------------------------------------------- cost

  function Below(dirty: set<nat>, b: nat): set<nat> {
    set g | g in dirty && g < b
  }

  lemma BelowGrows(dirty: set<nat>, a: nat, b: nat)
    requires a <= b
    ensures |Below(dirty, a)| <= |Below(dirty, b)|
  {
    Subset(Below(dirty, a), Below(dirty, b));
  }

  lemma Subset(a: set<nat>, b: set<nat>)
    requires a <= b
    ensures |a| <= |b|
  {
    assert b == a + (b - a);
  }

  /** Moving the bound past a stretch with no dirty grain but its first adds at most one. */
  lemma BelowStep(dirty: set<nat>, a: nat, b: nat)
    requires a <= b
    requires forall g :: a < g < b ==> g !in dirty
    ensures |Below(dirty, b)| == |Below(dirty, a)| + (if a in dirty && a < b then 1 else 0)
  {
    if a in dirty && a < b {
      assert Below(dirty, b) == Below(dirty, a) + {a};
    } else {
      assert Below(dirty, b) == Below(dirty, a);
    }
  }

  /** Chunks that d grains and k interruptions may have cost. */
  function Budget(geo: Geometry, d: nat, k: nat): nat
    requires geo.grain > 0
  {
    geo.Chunks() * (d + 2 * k)
  }

  lemma BudgetSteps(geo: Geometry, d: nat, k: nat)
    requires geo.grain > 0
    ensures Budget(geo, d + 1, k) == Budget(geo, d, k) + geo.Chunks()
    ensures Budget(geo, d, k + 1) == Budget(geo, d, k) + geo.Chunks() + geo.Chunks()
  {
    assert geo.Chunks() * (d + 1 + 2 * k) == geo.Chunks() * (d + 2 * k) + geo.Chunks();
    assert geo.Chunks() * (d + 2 * (k + 1)) == geo.Chunks() * (d + 2 * k) + 2 * geo.Chunks();
  }

  lemma BudgetMono(geo: Geometry, d: nat, e: nat, k: nat)
    requires geo.grain > 0 && d <= e
    ensures Budget(geo, d, k) <= Budget(geo, e, k)
  {
    MulMono(d + 2 * k, e + 2 * k, geo.Chunks());
  }

  /** Chunks written so far, after k interruptions. */
  ghost predicate WithinBudget(geo: Geometry, dirty: set<nat>, c: Client, k: nat)
    requires geo.grain > 0
  {
    if !c.begun then c.written <= Budget(geo, |dirty|, k)
    else if c.paused then c.written <= Budget(geo, |Below(dirty, c.last)|, k)
    else match c.thread
      case NotRunning => c.written <= Budget(geo, |Below(dirty, c.last)|, k)
      case Head(b) => c.written <= Budget(geo, |Below(dirty, b)|, k)
      case InGrain(b, j) => c.written <= Budget(geo, |Below(dirty, b)|, k) + j
      case OutOfLoop => c.written <= Budget(geo, |dirty|, k)
      case Ending => c.written <= Budget(geo, |dirty|, k)
  }

  /** Where the thread stands is at most one dirty grain past the position it would restart from. */
  lemma RestartLosesOneGrain(geo: Geometry, snap: seq<Sector>, dirty: set<nat>, c: Client, at: nat, from: nat)
    requires Open(geo, snap, dirty, c)
    requires from == c.last || from == c.persisted
    requires at == c.last || at == c.last + 1
    ensures |Below(dirty, at)| <= |Below(dirty, from)| + 1
  {
    BelowGrows(dirty, at, c.last + 1);
    BelowStep(dirty, from, c.last + 1);
  }

  /** The bit at which the thread stands. */
  function PlaceOf(geo: Geometry, t: Thread): nat {
    match t
    case NotRunning => 0
    case Head(b) => b
    case InGrain(b, _) => b
    case OutOfLoop => geo.bits
    case Ending => geo.bits
  }

  lemma BelowAll(geo: Geometry, dirty: set<nat>)
    requires forall g :: g in dirty ==> g < geo.bits
    ensures Below(dirty, geo.bits) == dirty
  {
  }

  lemma {:induction false} InterruptWithinBudget(geo: Geometry, snap: seq<Sector>, dirty: set<nat>, c: Client, a: Action, k: nat)
    requires Open(geo, snap, dirty, c) && Enabled(geo, c, a) && Interrupts(a)
    requires WithinBudget(geo, dirty, c, k)
    ensures WithinBudget(geo, dirty, Step(geo, snap, c, a), k + 1)
  {
    var from := if a == Crash then c.persisted else c.last;
    var at := if c.thread.NotRunning? || c.paused then c.last else PlaceOf(geo, c.thread);
    RestartLosesOneGrain(geo, snap, dirty, c, at, from);
    BudgetMono(geo, |Below(dirty, at)|, |Below(dirty, from)| + 1, k);
    BudgetSteps(geo, |Below(dirty, from)|, k);
    BudgetSteps(geo, |Below(dirty, at)|, k);
    BelowAll(geo, dirty);
    hide Below;
  }

  lemma {:induction false} AdvanceWithinBudget(geo: Geometry, snap: seq<Sector>, dirty: set<nat>, c: Client, a: Action, k: nat)
    requires Open(geo, snap, dirty, c) && Enabled(geo, c, a) && !Interrupts(a) && c.mode == NO_RESYNC
    requires WithinBudget(geo, dirty, c, k)
    ensures WithinBudget(geo, dirty, Step(geo, snap, c, a), k)
  {
    if a == Tick {
      match c.thread
      case Head(b) =>
        BelowStep(dirty, b, b + 1);
        BelowGrows(dirty, c.last, b);
        BudgetMono(geo, |Below(dirty, c.last)|, |Below(dirty, b)|, k);
        Subset(Below(dirty, b), dirty);
        BudgetMono(geo, |Below(dirty, b)|, |dirty|, k);
      case InGrain(b, j) =>
        BelowStep(dirty, b, b + 1);
        BelowGrows(dirty, c.last, b);
        BudgetMono(geo, |Below(dirty, c.last)|, |Below(dirty, b)|, k);
        BudgetSteps(geo, |Below(dirty, b)|, k);
      case OutOfLoop =>
      case Ending =>
        Subset(Below(dirty, c.last), dirty);
        BudgetMono(geo, |Below(dirty, c.last)|, |dirty|, k);
    }
    hide Below;
  }

  lemma ClosedWithinBudget(geo: Geometry, snap: seq<Sector>, dirty: set<nat>, c: Client, a: Action, k: nat)
    requires Closed(geo, snap, dirty, c) && Enabled(geo, c, a) && WithinBudget(geo, dirty, c, k)
    ensures Interrupts(a) && WithinBudget(geo, dirty, Step(geo, snap, c, a), k + 1)
  {
    BudgetSteps(geo, |dirty|, k);
  }

  lemma StepWithinBudget(geo: Geometry, snap: seq<Sector>, dirty: set<nat>, c: Client, a: Action, k: nat)
    requires Round(geo, snap, dirty, c) && Enabled(geo, c, a) && c.mode == NO_RESYNC
    requires WithinBudget(geo, dirty, c, k)
    ensures WithinBudget(geo, dirty, Step(geo, snap, c, a), k + if Interrupts(a) then 1 else 0)
  {
    hide Open, Closed, Step, Enabled, Interrupts, WithinBudget;
    if Closed(geo, snap, dirty, c) {
      ClosedWithinBudget(geo, snap, dirty, c, a, k);
    } else if Interrupts(a) {
      InterruptWithinBudget(geo, snap, dirty, c, a, k);
    } else {
      AdvanceWithinBudget(geo, snap, dirty, c, a, k);
    }
  }

  lemma {:induction false} RunWithinBudget(geo: Geometry, snap: seq<Sector>, c: Client, actions: seq<Action>)
    requires Fits(geo, snap, c) && Ready(geo, c)
    requires Possible(geo, snap, Begin(c, NO_RESYNC), actions)
    ensures WithinBudget(geo, c.bitmap, After(geo, snap, Begin(c, NO_RESYNC), actions), CountInterrupts(actions))
  {
    hide Open, Closed, Round, Ready, Step, Enabled, Interrupts, WithinBudget, Begin, Possible, After, CountInterrupts;
    var d := Begin(c, NO_RESYNC);
    BeginOpens(geo, snap, c, NO_RESYNC);
    if actions == [] {
      EmptyRun(geo, snap, d);
      NoInterruptsYet();
      NothingWritten(geo, c);
    } else {
      LastStep(geo, snap, d, actions);
      var front, a := actions[..|actions| - 1], actions[|actions| - 1];
      RunWithinBudget(geo, snap, c, front);
      OpenIsRound(geo, snap, c.bitmap, d);
      RunKeepsRound(geo, snap, c.bitmap, d, front);
      NormalRun(geo, snap, c, front);
      StepWithinBudget(geo, snap, c.bitmap, After(geo, snap, d, front), a, CountInterrupts(front));
    }
  }

  lemma NothingWritten(geo: Geometry, c: Client)
    requires geo.grain > 0
    ensures WithinBudget(geo, c.bitmap, Begin(c, NO_RESYNC), 0)
  {
  }

  lemma NormalRun(geo: Geometry, snap: seq<Sector>, c: Client, actions: seq<Action>)
    requires Fits(geo, snap, c) && Ready(geo, c)
    requires Possible(geo, snap, Begin(c, NO_RESYNC), actions)
    ensures After(geo, snap, Begin(c, NO_RESYNC), actions).mode == NO_RESYNC
  {
    BeginOpens(geo, snap, c, NO_RESYNC);
    RunLeavesClean(geo, snap, c.bitmap, c.target, Begin(c, NO_RESYNC), actions);
  }

  lemma BudgetTotal(geo: Geometry, snap: seq<Sector>, dirty: set<nat>, c: Client, k: nat)
    requires Round(geo, snap, dirty, c) && c.mode == NO_RESYNC && WithinBudget(geo, dirty, c, k)
    ensures c.written <= Budget(geo, |dirty|, k)
  {
    if c.begun {
      var at := if c.paused || c.thread.NotRunning? then c.last else PlaceOf(geo, c.thread);
      Subset(Below(dirty, at), dirty);
      BudgetMono(geo, |Below(dirty, at)|, |dirty|, k);
      if !c.paused && c.thread.InGrain? {
        BelowStep(dirty, at, at + 1);
        Subset(Below(dirty, at + 1), dirty);
        BudgetMono(geo, |Below(dirty, at)| + 1, |dirty|, k);
        BudgetSteps(geo, |Below(dirty, at)|, k);
      }
    }
  }

  lemma CostWithinBudget(geo: Geometry, snap: seq<Sector>, c: Client, actions: seq<Action>)
    requires Fits(geo, snap, c) && Ready(geo, c)
    requires Possible(geo, snap, Begin(c, NO_RESYNC), actions)
    ensures After(geo, snap, Begin(c, NO_RESYNC), actions).written
            <= Budget(geo, |c.bitmap|, CountInterrupts(actions))
  {
    var d := Begin(c, NO_RESYNC);
    BeginOpens(geo, snap, c, NO_RESYNC);
    hide Open, Closed, Round, WithinBudget, Possible, After, CountInterrupts, Begin, Ready, Budget;
    OpenIsRound(geo, snap, c.bitmap, d);
    RunWithinBudget(geo, snap, c, actions);
    RunKeepsRound(geo, snap, c.bitmap, d, actions);
    NormalRun(geo, snap, c, actions);
    BudgetTotal(geo, snap, c.bitmap, After(geo, snap, d, actions), CountInterrupts(actions));
  }

  /** A round with k interruptions transfers at most (set bits + 2k) * (grain / chunk) chunks. */
  lemma {:induction false} InterruptionCost(geo: Geometry, snap: seq<Sector>, c: Client, actions: seq<Action>)
    requires Fits(geo, snap, c) && Ready(geo, c)
    requires Possible(geo, snap, Begin(c, NO_RESYNC), actions)
    ensures CountChunks(geo, snap, Begin(c, NO_RESYNC), actions)
            <= geo.Chunks() * (|c.bitmap| + 2 * CountInterrupts(actions))
  {
    assert Begin(c, NO_RESYNC).written == 0;
    hide Possible, After, CountInterrupts, Begin, Ready, CountChunks;
    CostWithinBudget(geo, snap, c, actions);
    WrittenIsTransferred(geo, snap, Begin(c, NO_RESYNC), actions);
  }

  /** Chunks an uninterrupted round has transferred when its thread stands where it does. */
  function ChunksSoFar(geo: Geometry, dirty: set<nat>, t: Thread): nat
    requires geo.grain > 0
  {
    match t
    case Head(b) => geo.Chunks() * |Below(dirty, b)|
    case InGrain(b, k) => geo.Chunks() * |Below(dirty, b)| + k
    case _ => geo.Chunks() * |dirty|
  }

  lemma TickCosts(geo: Geometry, snap: seq<Sector>, c: Client)
    requires Fits(geo, snap, c) && Uninterrupted(geo, c) && c.thread != NotRunning
    ensures ChunksSoFar(geo, c.bitmap, Step(geo, snap, c, Tick).thread)
            == ChunksSoFar(geo, c.bitmap, c.thread) + (if CopiesChunk(geo, c, Tick) then 1 else 0)
  {
    if c.thread.Head? || c.thread.InGrain? {
      var b := c.thread.bit;
      BelowStep(c.bitmap, b, b + 1);
      assert geo.Chunks() * (|Below(c.bitmap, b)| + 1) == geo.Chunks() * |Below(c.bitmap, b)| + geo.Chunks();
      assert b >= geo.bits ==> Below(c.bitmap, b) == c.bitmap;
    }
    hide Below, Copied;
  }

  lemma {:induction false} TicksCost(geo: Geometry, snap: seq<Sector>, c: Client, actions: seq<Action>)
    requires Fits(geo, snap, c) && Possible(geo, snap, c, actions) && OnlyTicks(actions)
    requires Uninterrupted(geo, c) && c.thread == Head(0)
    ensures var d := After(geo, snap, c, actions);
            && Uninterrupted(geo, d) && d.bitmap == c.bitmap
            && CountChunks(geo, snap, c, actions) == ChunksSoFar(geo, c.bitmap, d.thread)
  {
    hide Step, ChunksSoFar, Uninterrupted, CopiesChunk;
    if actions == [] {
      assert Below(c.bitmap, 0) == {};
      assert ChunksSoFar(geo, c.bitmap, Head(0)) == 0 by { NothingSoFar(geo, c.bitmap); }
    } else {
      var front := actions[..|actions| - 1];
      LastStep(geo, snap, c, actions);
      assert actions[|actions| - 1] == Tick;
      TicksCost(geo, snap, c, front);
      var d := After(geo, snap, c, front);
      assert d.thread != NotRunning by { TickRuns(geo, d); }
      TickCosts(geo, snap, d);
      StaysUninterrupted(geo, snap, d);
    }
  }

  lemma NothingSoFar(geo: Geometry, dirty: set<nat>)
    requires geo.grain > 0
    ensures ChunksSoFar(geo, dirty, Head(0)) == 0
  {
    assert Below(dirty, 0) == {};
  }

  lemma TickRuns(geo: Geometry, c: Client)
    requires geo.grain > 0 && Enabled(geo, c, Tick)
    ensures c.thread != NotRunning
  {
  }

  lemma StaysUninterrupted(geo: Geometry, snap: seq<Sector>, c: Client)
    requires Fits(geo, snap, c) && Uninterrupted(geo, c) && c.thread != NotRunning
    ensures Uninterrupted(geo, Step(geo, snap, c, Tick)) && Step(geo, snap, c, Tick).bitmap == c.bitmap
  {
    hide Copied;
  }

  /** An uninterrupted round, once its thread is gone, has transferred each chunk of each dirty grain: exactly
      (set bits) * (grain / chunk) of them. */
  lemma {:induction false} UninterruptedCost(geo: Geometry, snap: seq<Sector>, c: Client, actions: seq<Action>)
    requires Fits(geo, snap, c) && Ready(geo, c) && !c.paused
    requires Possible(geo, snap, Begin(c, NO_RESYNC), actions) && OnlyTicks(actions)
    requires After(geo, snap, Begin(c, NO_RESYNC), actions).thread == NotRunning
    ensures CountChunks(geo, snap, Begin(c, NO_RESYNC), actions) == geo.Chunks() * |c.bitmap|
    ensures After(geo, snap, Begin(c, NO_RESYNC), actions).written == geo.Chunks() * |c.bitmap|
  {
    hide Possible, After, CountChunks;
    TicksCost(geo, snap, Begin(c, NO_RESYNC), actions);
    WrittenIsTransferred(geo, snap, Begin(c, NO_RESYNC), actions);
  }

  // ---------------------------------------------------------------- termination

  /** Steps a thread at bit b still has at most. */
  function Ahead(geo: Geometry, b: nat): nat
    requires geo.grain > 0
  {
    if b < geo.bits then (geo.bits - b) * (geo.Chunks() + 2) + 3 else 3
  }

  function ThreadRank(geo: Geometry, t: Thread): int
    requires geo.grain > 0
  {
    match t
    case NotRunning => 0
    case Head(b) => Ahead(geo, b)
    case InGrain(b, k) => Ahead(geo, b + 1) + (geo.Chunks() - k) + 1
    case OutOfLoop => 2
    case Ending => 1
  }

  /** The order on rounds: bits left and chunks left, plus a whole pass for each pause or outage that
      still has to be undone. */
  function Rank(geo: Geometry, c: Client): int
    requires geo.grain > 0
  {
    var pass := Ahead(geo, 0) + 1;
    ThreadRank(geo, c.thread) + (if c.paused then pass else 0) + (if c.outage != Up then pass else 0)
  }

  lemma AheadFacts(geo: Geometry, b: nat)
    requires geo.grain > 0
    ensures Ahead(geo, b) <= Ahead(geo, 0)
    ensures b < geo.bits ==> Ahead(geo, b) == Ahead(geo, b + 1) + geo.Chunks() + 2
  {
    if b < geo.bits {
      MulMono(geo.bits - b, geo.bits, geo.Chunks() + 2);
      assert (geo.bits - b) * (geo.Chunks() + 2) == (geo.bits - (b + 1)) * (geo.Chunks() + 2) + (geo.Chunks() + 2);
    }
  }

  lemma TickRank(geo: Geometry, snap: seq<Sector>, dirty: set<nat>, c: Client)
    requires Open(geo, snap, dirty, c) && c.thread != NotRunning
    ensures 0 <= Rank(geo, TickStep(geo, snap, c)) < Rank(geo, c)
  {
    AheadFacts(geo, PlaceOf(geo, c.thread));
    hide Ahead, DoneBelow, ChunksDone, Copied;
  }

  /** Every step that is not an interruption brings the round nearer to its end; an interruption costs
      at most one more pass. */
  lemma {:induction false} RankDecreases(geo: Geometry, snap: seq<Sector>, dirty: set<nat>, c: Client, a: Action)
    requires Open(geo, snap, dirty, c) && Enabled(geo, c, a)
    ensures Rank(geo, c) >= 0
    ensures !Interrupts(a) ==> 0 <= Rank(geo, Step(geo, snap, c, a)) < Rank(geo, c)
    ensures Interrupts(a) ==> 0 <= Rank(geo, Step(geo, snap, c, a)) <= Rank(geo, c) + Ahead(geo, 0) + 1
  {
    AheadFacts(geo, c.last);
    AheadFacts(geo, c.persisted);
    if a == Tick {
      TickRank(geo, snap, dirty, c);
    }
    hide Ahead, TickStep, DoneBelow, ChunksDone;
  }

  /** The action a round that is not finished can always take without an interruption. */
  function Onward(c: Client): Action {
    if c.thread != NotRunning then Tick else if c.outage != Up then Recover else AskResume
  }

  lemma {:induction false} NeverStuck(geo: Geometry, snap: seq<Sector>, dirty: set<nat>, c: Client)
    requires Open(geo, snap, dirty, c)
    ensures Enabled(geo, c, Onward(c)) && !Interrupts(Onward(c))
  {
  }

  /** The round is not finished before any step of the run. */
  ghost predicate Unfinished(geo: Geometry, snap: seq<Sector>, c: Client, actions: seq<Action>)
    requires Fits(geo, snap, c)
  {
    actions == [] ||
    var front := actions[..|actions| - 1];
    Unfinished(geo, snap, c, front) && After(geo, snap, c, front).begun
  }

  lemma RankNotNegative(geo: Geometry, snap: seq<Sector>, dirty: set<nat>, c: Client)
    requires Open(geo, snap, dirty, c)
    ensures Rank(geo, c) >= 0
  {
    RankDecreases(geo, snap, dirty, c, AskPause);
  }

  lemma {:induction false} BoundedByRank(geo: Geometry, snap: seq<Sector>, dirty: set<nat>, d: Client, actions: seq<Action>)
    requires Open(geo, snap, dirty, d)
    requires Possible(geo, snap, d, actions) && Unfinished(geo, snap, d, actions)
    ensures Rank(geo, After(geo, snap, d, actions)) >= 0
    ensures |actions| + Rank(geo, After(geo, snap, d, actions))
            <= Rank(geo, d) + CountInterrupts(actions) * (Ahead(geo, 0) + 2)
  {
    hide Open, Closed, Round, Step, Rank, Ahead, Enabled, Interrupts;
    RankNotNegative(geo, snap, dirty, d);
    OpenIsRound(geo, snap, dirty, d);
    if actions != [] {
      var front, a := actions[..|actions| - 1], actions[|actions| - 1];
      BoundedByRank(geo, snap, dirty, d, front);
      RunKeepsRound(geo, snap, dirty, d, front);
      var e := After(geo, snap, d, front);
      BegunIsOpen(geo, snap, dirty, e);
      RankDecreases(geo, snap, dirty, e, a);
      OneMore(CountInterrupts(front), Ahead(geo, 0) + 2);
    }
  }

  lemma OneMore(k: nat, m: nat)
    ensures (k + 1) * m == k * m + m
  {
  }

  /** A run of a round that has not finished before its last step has at most three passes of steps
      (two of them only if the round starts paused or cut off), plus one more for each interruption:
      with finitely many interruptions it cannot go on for ever. */
  lemma {:induction false} RunsAreBounded(geo: Geometry, snap: seq<Sector>, c: Client, mode: Mode, actions: seq<Action>)
    requires Fits(geo, snap, c) && Ready(geo, c)
    requires Possible(geo, snap, Begin(c, mode), actions) && Unfinished(geo, snap, Begin(c, mode), actions)
    ensures |actions| <= (CountInterrupts(actions) + 3) * (Ahead(geo, 0) + 2)
  {
    var d := Begin(c, mode);
    BeginOpens(geo, snap, c, mode);
    assert Rank(geo, d) <= 3 * (Ahead(geo, 0) + 2);
    hide Open, Ready, Rank, Ahead, Possible, After, Unfinished, CountInterrupts, Begin;
    BoundedByRank(geo, snap, c.bitmap, d, actions);
    var k, m := CountInterrupts(actions), Ahead(geo, 0) + 2;
    OneMore(k, m);
    OneMore(k + 1, m);
    OneMore(k + 2, m);
  }

  /** The onward action leads on, or completes the round; a running thread that is not paused just goes
      on. */
  lemma OnwardStep(geo: Geometry, snap: seq<Sector>, dirty: set<nat>, d: Client) returns (e: Client)
    requires Open(geo, snap, dirty, d)
    ensures e == Step(geo, snap, d, Onward(d))
    ensures Enabled(geo, d, Onward(d)) && !Interrupts(Onward(d))
    ensures Round(geo, snap, dirty, e)
    ensures if e.rep == Completed then !e.begun && e.thread == NotRunning
            else Open(geo, snap, dirty, e) && 0 <= Rank(geo, e) < Rank(geo, d)
    ensures d.thread != NotRunning && !d.paused ==>
      Onward(d) == Tick && !e.paused && (e.rep == Completed || e.thread != NotRunning)
  {
    NeverStuck(geo, snap, dirty, d);
    RankDecreases(geo, snap, dirty, d, Onward(d));
    StepKeepsRound(geo, snap, dirty, d, Onward(d));
    e := Step(geo, snap, d, Onward(d));
    hide DoneBelow, ChunksDone, Rank;
  }

  /** From wherever interruptions have left a round, doing the onward action again and again completes
      it. */
  lemma {:induction false} RoundCompletes(geo: Geometry, snap: seq<Sector>, dirty: set<nat>, c: Client)
    returns (actions: seq<Action>)
    requires Open(geo, snap, dirty, c)
    ensures Possible(geo, snap, c, actions)
    ensures CountInterrupts(actions) == 0
    ensures After(geo, snap, c, actions).rep == Completed
    ensures c.thread != NotRunning && !c.paused ==> OnlyTicks(actions)
  {
    actions := [];
    var d := c;
    EmptyRun(geo, snap, c);
    OpenIsRound(geo, snap, dirty, c);
    RankNotNegative(geo, snap, dirty, c);
    hide Open, Closed, Round, Possible, After, Step, Enabled, Interrupts, Rank, Onward, CountInterrupts;
    NoInterruptsYet();
    while d.rep != Completed
      invariant Possible(geo, snap, c, actions) && d == After(geo, snap, c, actions)
      invariant CountInterrupts(actions) == 0
      invariant d.rep != Completed ==> Open(geo, snap, dirty, d) && Rank(geo, d) >= 0
      invariant c.thread != NotRunning && !c.paused && d.rep != Completed ==> d.thread != NotRunning && !d.paused
      invariant c.thread != NotRunning && !c.paused ==> OnlyTicks(actions)
      decreases d.rep != Completed, Rank(geo, d)
    {
      var a := Onward(d);
      var e := OnwardStep(geo, snap, dirty, d);
      OneMoreAction(actions, a);
      d := Extend(geo, snap, c, actions, a);
      actions := actions + [a];
    }
  }

  lemma NoInterruptsYet()
    ensures CountInterrupts([]) == 0
  {
  }

  lemma OneMoreAction(actions: seq<Action>, a: Action)
    ensures CountInterrupts(actions + [a]) == CountInterrupts(actions) + if Interrupts(a) then 1 else 0
  {
    assert (actions + [a])[..|actions|] == actions;
  }
}
