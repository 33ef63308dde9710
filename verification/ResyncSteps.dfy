/** The resync client as a step system: one resync thread, the commands that pause and resume it,
    the failures that stop it and the recovery that restarts it.

    A `Client` is one partner's slice of the client daemon's globals.  `Step` is what the code does
    at one step, `Enabled` says when that step can happen. */
module ResyncSteps {
  import opened Geometry

  /** Contents of one 512-byte sector. */
  type Sector = int

  /** Where the resync thread stands in `restart_resync`. */
  datatype Thread =
    | NotRunning
    | Head(bit: nat)                 // at the test of the while loop
    | InGrain(bit: nat, chunk: nat)  // at the head of the for loop over chunks
    | OutOfLoop                      // below the while loop, before its test for a pause
    | Ending                         // past that test, about to terminate

  datatype Mode = NO_RESYNC | FULL_RESYNC

  datatype Outage = Up | LinkDown | DiskDown   // CONN_OBJ_PAUSE, DISK_OBJ_PAUSE

  datatype RepState = InProgress | Pause | Resume | Completed

  /** A chunk, as the request header names it. */
  datatype Chunk = Chunk(bit: nat, k: nat)

  /** A row of the resync table.  Rows are never deleted, so those of earlier rounds come first. */
  datatype Row = Row(pos: nat, state: RepState)

  datatype Client = Client(
    thread: Thread,
    mode: Mode,
    paused: bool,          // PARTNER_OBJ_PAUSE
    outage: Outage,
    rep: RepState,
    begun: bool,           // the round has a row in the resync table
    loaded: bool,          // the client holds a bitmap
    bitmap: set<nat>,      // grains marked in the received bitmap
    saved: set<nat>,       // the bitmap file
    last: nat,             // last_resynced_bit
    persisted: nat,        // the position this round wrote to the table last
    rows: seq<Row>,        // the resync table
    asked: Chunk,          // curr_pos and chunk_pos of the request header
    target: seq<Sector>,
    written: nat)          // chunks written in this round (bookkeeping, not in the code)

  datatype Action =
    | Tick          // the thread's next step, nothing going wrong
    | LinkFails     // send or receive error on the chunk at hand
    | WriteFails    // target write error on the chunk at hand
    | AskPause      // operator command 'n'
    | AskResume     // operator command 'l'
    | Recover       // recovery thread: restart_conn_client or restart_disk
    | Crash         // the client daemon dies and is started again

  /** `to` with sectors lo..hi-1 taken from `from`. */
  function Copied(to: seq<Sector>, from: seq<Sector>, lo: nat, hi: nat): (r: seq<Sector>)
    requires |to| == |from|
    ensures |r| == |to|
    ensures forall s :: 0 <= s < |to| ==> r[s] == if lo <= s < hi then from[s] else to[s]
  {
    seq(|to|, s requires 0 <= s < |to| => if lo <= s < hi then from[s] else to[s])
  }

  // ---------------------------------------------------------------- the resync table

  /** `insert_into_resync` */
  function InsertRow(rows: seq<Row>): seq<Row> {
    rows + [Row(0, InProgress)]
  }

  /** `update_into_resync`: the rows whose state is the one in memory get the position. */
  function MovePosition(rows: seq<Row>, pos: nat, state: RepState): (r: seq<Row>)
    ensures |r| == |rows|
    ensures forall i :: 0 <= i < |r| ==> r[i] == if rows[i].state == state then Row(pos, state) else rows[i]
  {
    seq(|rows|, i requires 0 <= i < |rows| => if rows[i].state == state then Row(pos, state) else rows[i])
  }

  /** `update_resync_state`: all rows get the state. */
  function SetStates(rows: seq<Row>, state: RepState): (r: seq<Row>)
    ensures |r| == |rows|
    ensures forall i :: 0 <= i < |r| ==> r[i] == Row(rows[i].pos, state)
  {
    seq(|rows|, i requires 0 <= i < |rows| => Row(rows[i].pos, state))
  }

  /** `retrieve_from_resync`: the first row that is not completed, which is the one a restarted daemon
      takes its position and state from. */
  function FirstOpen(rows: seq<Row>): (i: nat)
    ensures i <= |rows|
    ensures i < |rows| ==> rows[i].state != Completed
    ensures forall j :: 0 <= j < i ==> rows[j].state == Completed
  {
    if rows == [] || rows[0].state != Completed then 0 else 1 + FirstOpen(rows[1..])
  }

  // ---------------------------------------------------------------- what the code does

  /** The loop copies this grain. */
  predicate Copies(c: Client, bit: nat) {
    bit in c.bitmap || c.mode == FULL_RESYNC
  }

  /** `resync_init` at `bit`: a new thread, always in normal mode; a start at bit 0 (outside daemon
      recovery) inserts the resync row. */
  function Launch(c: Client, bit: nat): Client {
    var d := c.(thread := Head(bit), mode := NO_RESYNC, begun := true);
    if bit == 0 then d.(rep := InProgress, persisted := 0, rows := InsertRow(c.rows)) else d
  }

  predicate FirstWordMarked(sent: set<nat>) {
    exists g :: g in sent && g < 64
  }

  /** `request_server_for_metadata`: the received bitmap replaces the old one, and goes to the bitmap
      file only when its first 64-bit word is not zero. */
  function LoadBitmap(c: Client, sent: set<nat>): Client {
    c.(bitmap := sent, loaded := true, saved := if FirstWordMarked(sent) then sent else c.saved)
  }

  /** Command 'r', or a full resync from position 0. */
  function Begin(c: Client, mode: Mode): Client {
    Launch(c, 0).(mode := mode, written := 0)
  }

  /** End of the while body after a copied grain: position persisted, then `last_resynced_bit`. */
  function GrainDone(c: Client, bit: nat): Client {
    c.(persisted := bit, rows := MovePosition(c.rows, bit, c.rep), last := bit, thread := Head(bit + 1))
  }

  /** `replication_terminate`: it tests for a pause again, and a pause that has come since the loop's last
      test keeps the position from being reset. */
  function Terminate(c: Client): Client {
    if c.rep == Completed then c.(thread := NotRunning)
    else c.(thread := NotRunning, last := if c.paused then c.last else 0, rep := Completed, paused := false,
            begun := false, loaded := false, rows := SetStates(c.rows, Completed))
  }

  ghost predicate Fits(geo: Geometry, snap: seq<Sector>, c: Client) {
    geo.Valid() && |snap| == geo.cap == |c.target|
  }

  function TickStep(geo: Geometry, snap: seq<Sector>, c: Client): (d: Client)
    requires Fits(geo, snap, c)
    ensures Fits(geo, snap, d)
  {
    match c.thread
    case NotRunning => c
    case Head(b) =>
      if b < geo.bits && !c.paused then
        if Copies(c, b) then c.(thread := InGrain(b, 0)) else c.(last := b, thread := Head(b + 1))
      else c.(thread := OutOfLoop)
    case OutOfLoop => if c.paused then c.(thread := NotRunning) else c.(thread := Ending)
    case Ending => Terminate(c)
    case InGrain(b, k) =>
      if k < geo.Chunks() && !c.paused then
        c.(asked := Chunk(b, k),
           target := Copied(c.target, snap, geo.Lba(b, k), geo.Lba(b, k) + BUFFER),
           written := c.written + 1,
           thread := InGrain(b, k + 1))
      else if k < geo.Chunks() then GrainDone(c.(asked := Chunk(b, k)), b)
      else GrainDone(c, b)
  }

  /** The chunk at hand: the header is set before anything else is done about a chunk. */
  function ChunkAt(c: Client): Chunk {
    if c.thread.InGrain? then Chunk(c.thread.bit, c.thread.chunk) else c.asked
  }

  function Step(geo: Geometry, snap: seq<Sector>, c: Client, a: Action): (d: Client)
    requires Fits(geo, snap, c)
    ensures Fits(geo, snap, d)
  {
    match a
    case Tick => TickStep(geo, snap, c)
    case LinkFails => c.(thread := NotRunning, outage := LinkDown, asked := ChunkAt(c))
    case WriteFails => c.(thread := NotRunning, outage := DiskDown, asked := ChunkAt(c))
    case AskPause =>
      if c.last == 0 then c else c.(paused := true, rep := Pause, rows := SetStates(c.rows, Pause))
    case AskResume =>
      if c.rep == Completed then c
      else Launch(c.(paused := false, rep := Resume, rows := SetStates(c.rows, Resume)), c.last)
    case Recover => Launch(c.(outage := Up), c.last)
    case Crash =>
      var i := FirstOpen(c.rows);
      if i < |c.rows| then
        c.(thread := Head(c.rows[i].pos), mode := NO_RESYNC, outage := Up, rep := c.rows[i].state,
           last := c.rows[i].pos, persisted := c.rows[i].pos, bitmap := c.saved, asked := Chunk(0, 0))
      else c.(thread := NotRunning)
  }

  /** One row is open: a restarted daemon starts a thread for each. */
  predicate OneOpenRow(rows: seq<Row>) {
    var i := FirstOpen(rows);
    i < |rows| && forall j :: i < j < |rows| ==> rows[j].state == Completed
  }

  /** A daemon that restarted now would find the bitmap and the position of this round, and start one
      thread. */
  predicate RestartsWell(c: Client) {
    && c.saved == c.bitmap
    && OneOpenRow(c.rows) && c.rows[FirstOpen(c.rows)].pos == c.persisted
  }

  /** When a step can happen.  Three clauses are assumptions about the daemon's use rather than tests
      in its code: a resume waits until the old thread is gone and recovery has dealt with an outage,
      recovery restarts a thread only when none is running, and a crash finds the daemon in a state it can
      restart one thread from.  Overlap and EarlyResume say what happens without the first, Restart
      without the last. */
  predicate Enabled(geo: Geometry, c: Client, a: Action)
    requires geo.grain > 0
  {
    match a
    case Tick => c.thread != NotRunning
    case LinkFails => c.thread.InGrain? && c.thread.chunk < geo.Chunks() && !c.paused
    case WriteFails => c.thread.InGrain? && c.thread.chunk < geo.Chunks() && !c.paused
    case AskPause => true
    case AskResume => c.thread == NotRunning && c.begun && c.paused && c.outage == Up
    case Recover => c.thread == NotRunning && c.begun && c.outage != Up
    case Crash => c.begun && RestartsWell(c)
  }

  /** The steps that delay a round rather than advance it. */
  predicate Interrupts(a: Action) {
    a in {LinkFails, WriteFails, AskPause, Crash}
  }

  function CountInterrupts(actions: seq<Action>): nat {
    if actions == [] then 0
    else CountInterrupts(actions[..|actions| - 1]) + (if Interrupts(actions[|actions| - 1]) then 1 else 0)
  }

  /** `actions` is a run from c. */
  ghost predicate Possible(geo: Geometry, snap: seq<Sector>, c: Client, actions: seq<Action>)
    requires Fits(geo, snap, c)
  {
    actions == [] ||
    var front := actions[..|actions| - 1];
    && Possible(geo, snap, c, front)
    && Enabled(geo, After(geo, snap, c, front), actions[|actions| - 1])
  }

  function After(geo: Geometry, snap: seq<Sector>, c: Client, actions: seq<Action>): (d: Client)
    requires Fits(geo, snap, c)
    ensures Fits(geo, snap, d)
  {
    if actions == [] then c
    else Step(geo, snap, After(geo, snap, c, actions[..|actions| - 1]), actions[|actions| - 1])
  }

  /** One more step. */
  lemma Extend(geo: Geometry, snap: seq<Sector>, c: Client, actions: seq<Action>, a: Action) returns (d: Client)
    requires Fits(geo, snap, c) && Possible(geo, snap, c, actions) && Enabled(geo, After(geo, snap, c, actions), a)
    ensures Possible(geo, snap, c, actions + [a])
    ensures d == After(geo, snap, c, actions + [a]) == Step(geo, snap, After(geo, snap, c, actions), a)
  {
    assert (actions + [a])[..|actions|] == actions;
    hide Step, Enabled;
    d := After(geo, snap, c, actions + [a]);
  }

  /** A run is its front and its last step. */
  lemma LastStep(geo: Geometry, snap: seq<Sector>, c: Client, actions: seq<Action>)
    requires Fits(geo, snap, c) && Possible(geo, snap, c, actions) && actions != []
    ensures var front, a := actions[..|actions| - 1], actions[|actions| - 1];
            && Possible(geo, snap, c, front)
            && Enabled(geo, After(geo, snap, c, front), a)
            && After(geo, snap, c, actions) == Step(geo, snap, After(geo, snap, c, front), a)
            && CountInterrupts(actions) == CountInterrupts(front) + (if Interrupts(a) then 1 else 0)
  {
    hide Step, Enabled, Interrupts;
  }

  lemma EmptyRun(geo: Geometry, snap: seq<Sector>, c: Client)
    requires Fits(geo, snap, c)
    ensures Possible(geo, snap, c, []) && After(geo, snap, c, []) == c
  {
  }

  /** A run followed by a run is a run. */
  lemma {:induction false} Concat(geo: Geometry, snap: seq<Sector>, c: Client, first: seq<Action>, second: seq<Action>)
    requires Fits(geo, snap, c) && Possible(geo, snap, c, first)
    requires Possible(geo, snap, After(geo, snap, c, first), second)
    ensures Possible(geo, snap, c, first + second)
    ensures After(geo, snap, c, first + second) == After(geo, snap, After(geo, snap, c, first), second)
  {
    hide Possible, After, Step, Enabled, CountInterrupts, Interrupts;
    var d := After(geo, snap, c, first);
    if second == [] {
      EmptyRun(geo, snap, d);
      assert first + second == first;
    } else {
      var front, a := second[..|second| - 1], second[|second| - 1];
      LastStep(geo, snap, d, second);
      Concat(geo, snap, c, first, front);
      var e := Extend(geo, snap, c, first + front, a);
      assert first + front + [a] == first + second;
    }
  }

  /** A client about to start a round: bitmap received, nothing running, no position left over. */
  ghost predicate Ready(geo: Geometry, c: Client) {
    && c.thread == NotRunning
    && c.loaded
    && c.last == 0
    && (forall g :: g in c.bitmap ==> g < geo.bits)
  }

  // ---------------------------------------------------------------- the round invariant

  /** Every sector of a dirty grain below `bit` is the snapshot's. */
  ghost predicate DoneBelow(geo: Geometry, snap: seq<Sector>, dirty: set<nat>, target: seq<Sector>, bit: nat)
    requires geo.grain > 0 && |snap| == |target|
  {
    forall s: nat :: s < |target| && geo.GrainOf(s) in dirty && geo.GrainOf(s) < bit ==> target[s] == snap[s]
  }

  /** So is every sector in the first k chunks of grain `bit`. */
  ghost predicate ChunksDone(geo: Geometry, snap: seq<Sector>, target: seq<Sector>, bit: nat, k: nat)
    requires geo.grain > 0 && |snap| == |target|
  {
    forall s: nat :: s < |target| && geo.GrainOf(s) == bit && ChunkOf(geo, s) < k ==> target[s] == snap[s]
  }

  /** The request header names the last chunk the thread has passed, if it has passed one since it began. */
  ghost predicate AskedGood(geo: Geometry, dirty: set<nat>, c: Client)
    requires geo.Valid()
  {
    match c.thread
    case NotRunning => true
    case Head(b) => !c.paused && b == c.last + 1 && c.last in dirty ==> c.asked == Chunk(c.last, geo.Chunks() - 1)
    case InGrain(b, k) => k > 0 ==> c.asked == Chunk(b, k - 1)
    case OutOfLoop => !c.paused && c.last in dirty ==> c.asked == Chunk(c.last, geo.Chunks() - 1)
    case Ending => c.last in dirty ==> c.asked == Chunk(c.last, geo.Chunks() - 1)
  }

  /** What holds of an open round, whatever interrupted it: dirty grains below `last_resynced_bit` and
      below the persisted position are copied, and the running thread has copied everything before
      the place where it stands. */
  ghost predicate Open(geo: Geometry, snap: seq<Sector>, dirty: set<nat>, c: Client) {
    && Fits(geo, snap, c)
    && c.begun && c.loaded && c.rep != Completed
    && c.bitmap == dirty
    && (forall g :: g in dirty ==> g < geo.bits)
    && c.persisted <= c.last < geo.bits
    && (forall g :: c.persisted < g <= c.last ==> g !in dirty)
    && DoneBelow(geo, snap, dirty, c.target, c.last)
    && AskedGood(geo, dirty, c)
    && (match c.thread
        case NotRunning => c.paused || c.outage != Up
        case Head(b) =>
          && b <= geo.bits
          && (b == c.last || b == c.last + 1)
          && (c.paused || DoneBelow(geo, snap, dirty, c.target, b))
        case InGrain(b, k) =>
          && b < geo.bits
          && (b == c.last || b == c.last + 1)
          && Copies(c, b)
          && k <= geo.Chunks()
          && DoneBelow(geo, snap, dirty, c.target, b)
          && ChunksDone(geo, snap, c.target, b, k)
        case OutOfLoop => c.paused || (c.last == geo.bits - 1 && DoneBelow(geo, snap, dirty, c.target, geo.bits))
        case Ending => c.last == geo.bits - 1 && DoneBelow(geo, snap, dirty, c.target, geo.bits))
  }

  /** A finished round: everything dirty is the snapshot's.  A position may be left over, and while one is
      a pause command still marks the round as paused. */
  ghost predicate Closed(geo: Geometry, snap: seq<Sector>, dirty: set<nat>, c: Client) {
    && Fits(geo, snap, c)
    && c.thread == NotRunning && !c.begun && !c.loaded
    && (c.rep == Completed || (c.paused && c.last != 0))
    && DoneBelow(geo, snap, dirty, c.target, geo.bits)
  }

  ghost predicate Round(geo: Geometry, snap: seq<Sector>, dirty: set<nat>, c: Client) {
    Open(geo, snap, dirty, c) || Closed(geo, snap, dirty, c)
  }
}
