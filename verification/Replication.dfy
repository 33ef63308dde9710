/** The whole replicator as a step system: writes through the kernel module, the source disk, its
    snapshot, the server daemon, the resync client and the messages between them.

    `CanHappen` holds what the code and the order of operator commands impose.  It does not forbid
    writes at awkward moments: those are recorded in `exposed` (see `Land` and `Flip`). */
module Replication {
  import opened Geometry
  import opened ResyncSteps

  /** A write request: sectors start .. start + |data| - 1 get new contents. */
  datatype Write = Write(start: nat, data: seq<Sector>)

  datatype BmapUser = KERNEL | USER

  /** The kernel's bitmap object: two areas of `size` and the offset `area` of the one being marked. */
  datatype Kernel = Kernel(low: set<nat>, high: set<nat>, area: nat, size: nat, user: BmapUser)

  datatype Phase =
    | NoRound   // no request open on the server
    | Snapped   // snapshot taken, metadata not yet requested
    | Copying(words: nat)   // the server has copied this many words of the bitmap
    | Loaded    // bitmap copied by the server, FLIP not yet sent
    | Sending   // flipped; the bitmap is on its way
    | Serving   // the client has the bitmap

  datatype Server = Server(phase: Phase, user: BmapUser, sent: set<nat>, released: bool)

  datatype System = System(
    source: seq<Sector>,
    snapshot: seq<Sector>,
    kernel: Kernel,
    server: Server,
    client: Client,
    pending: seq<Write>,     // marked in the bitmap, not yet on the source disk
    terminating: bool,       // the client's termination message is on its way
    // bookkeeping, not in the code:
    exposed: set<nat>,       // grains of writes marked before a FLIP that reached the disk after its snapshot
    atRisk: set<nat>,        // those of them not marked again since
    cleanFlip: bool,         // at the last FLIP the area flipped to was empty
    rested: bool)            // the open request started with no other request open

  datatype Event =
    | Mark(w: Write)            // ebdr_update_bmap_and_sync
    | Land(i: nat)              // the submitted write reaches the source disk
    | TakeSnapshot
    | StartCopy                 // GET_USER
    | CopyWord                  // one turn of ebdr_copy_mmaped_bitmap, which runs beside the kernel's marking
    | Flip                      // EBDR_FLIP_BITMAP_AREA
    | Deliver                   // the bitmap reaches the client
    | BeginRound(mode: Mode)
    | Do(a: Action)             // a client step
    | ServerTerminate           // the server handles RPLC_TERMINATION
    | LoseTerminate             // the message is lost

  // ---------------------------------------------------------------- the kernel module

  /** The area the kernel is marking. */
  function Marking(k: Kernel): set<nat> {
    if k.area == 0 then k.low else if k.area == k.size then k.high else {}
  }

  /** The other one. */
  function Resting(k: Kernel): set<nat> {
    if k.area == 0 then k.high else if k.area == k.size then k.low else {}
  }

  function MarkGrains(k: Kernel, grains: set<nat>): Kernel {
    if k.area == 0 then k.(low := k.low + grains)
    else if k.area == k.size then k.(high := k.high + grains)
    else k
  }

  /** EBDR_FLIP_BITMAP_AREA */
  function FlipArea(k: Kernel): Kernel {
    if k.user == USER then k.(area := 0, user := KERNEL)
    else k.(area := k.area + k.size, user := USER)
  }

  // ---------------------------------------------------------------- the server

  /** `server_bitmap_load_from_memory`: whom the server notes as user, and the area it copies. */
  function NotedUser(k: Kernel): BmapUser {
    if k.user == KERNEL then USER else KERNEL
  }

  function CopiedArea(k: Kernel, noted: BmapUser): set<nat> {
    if noted == USER then k.low else k.high
  }

  /** The marks in one 64-bit word of an area. */
  function WordMarks(area: set<nat>, word: nat): set<nat> {
    set g | g in area && g / 64 == word
  }

  /** A request is open and the FLIP has not come yet. */
  predicate BeforeFlip(p: Phase) {
    p.Snapped? || p.Copying? || p.Loaded?
  }

  /** `bitmap_server_destroy` clears the area the server believes it handed out. */
  function ClearHandedOut(k: Kernel, user: BmapUser): Kernel {
    if user == USER then k.(low := {}) else k.(high := {})
  }

  // ---------------------------------------------------------------- writes

  function Grains(geo: Geometry, w: Write): set<nat>
    requires geo.grain > 0 && geo.bits > 0
  {
    geo.MarkRange(w.start, |w.data|)
  }

  function Apply(disk: seq<Sector>, w: Write): (r: seq<Sector>)
    ensures |r| == |disk|
  {
    seq(|disk|, s requires 0 <= s < |disk| => if w.start <= s < w.start + |w.data| then w.data[s - w.start] else disk[s])
  }

  /** Some pending write has marked grain g. */
  predicate Waiting(geo: Geometry, pending: seq<Write>, g: nat)
    requires geo.grain > 0 && geo.bits > 0
  {
    exists i :: 0 <= i < |pending| && g in Grains(geo, pending[i])
  }

  function PendingGrains(geo: Geometry, pending: seq<Write>): set<nat>
    requires geo.grain > 0 && geo.bits > 0
  {
    set g: nat | g < geo.bits && Waiting(geo, pending, g)
  }

  // ---------------------------------------------------------------- steps

  ghost predicate Sized(geo: Geometry, s: System) {
    && geo.Valid()
    && |s.source| == geo.cap
    && Fits(geo, s.snapshot, s.client)
  }

  /** The client can be asked for a new round: no thread, and no position left over. */
  predicate ClientAtRest(c: Client) {
    c.thread == NotRunning && c.last == 0
  }

  predicate CanHappen(geo: Geometry, s: System, e: Event)
    requires geo.grain > 0
  {
    match e
    case Mark(_) => true
    case Land(i) => i < |s.pending|
    case TakeSnapshot => !s.terminating && ClientAtRest(s.client)
    case StartCopy => s.server.phase == Snapped
    case CopyWord => s.server.phase.Copying?
    case Flip => s.server.phase == Loaded
    case Deliver => s.server.phase == Sending
    case BeginRound(_) => s.server.phase == Serving && s.client.loaded && !s.client.begun && ClientAtRest(s.client)
    case Do(a) => s.server.phase == Serving && Enabled(geo, s.client, a)
    case ServerTerminate => s.terminating
    case LoseTerminate => s.terminating
  }

  function Next(geo: Geometry, s: System, e: Event): (t: System)
    requires Sized(geo, s)
    ensures Sized(geo, t)
  {
    match e
    case Mark(w) =>
      s.(kernel := MarkGrains(s.kernel, Grains(geo, w)), pending := s.pending + [w],
         atRisk := s.atRisk - Grains(geo, w))
    case Land(i) =>
      if i < |s.pending| then
        var w := s.pending[i];
        var late := if BeforeFlip(s.server.phase) then Grains(geo, w) else {};
        s.(source := Apply(s.source, w),
           pending := s.pending[..i] + s.pending[i + 1..],
           exposed := s.exposed + late, atRisk := s.atRisk + late)
      else s
    case TakeSnapshot =>
      s.(snapshot := s.source,
         server := s.server.(phase := Snapped),
         client := s.client.(loaded := false, begun := false),
         rested := s.server.phase == NoRound || (BeforeFlip(s.server.phase) && s.rested))
    case StartCopy =>
      s.(server := Server(Copying(0), NotedUser(s.kernel), {}, false))
    case CopyWord =>
      if s.server.phase.Copying? then
        var n := s.server.phase.words;
        s.(server := s.server.(
             sent := s.server.sent + WordMarks(CopiedArea(s.kernel, s.server.user), n),
             phase := if (n + 1) * 64 < geo.bits then Copying(n + 1) else Loaded))
      else s
    case Flip =>
      var k := FlipArea(s.kernel);
      s.(kernel := k,
         server := s.server.(phase := Sending),
         exposed := s.exposed + PendingGrains(geo, s.pending),
         atRisk := s.atRisk + PendingGrains(geo, s.pending),
         cleanFlip := Marking(k) == {})
    case Deliver =>
      s.(client := LoadBitmap(s.client, s.server.sent), server := s.server.(phase := Serving))
    case BeginRound(mode) => s.(client := Begin(s.client, mode))
    case Do(a) =>
      var c := Step(geo, s.snapshot, s.client, a);
      s.(client := c, terminating := s.terminating || (s.client.rep != Completed && c.rep == Completed))
    case ServerTerminate =>
      if s.server.released then s.(terminating := false)
      else s.(terminating := false,
              kernel := ClearHandedOut(s.kernel, s.server.user),
              server := s.server.(phase := NoRound, released := true))
    case LoseTerminate => s.(terminating := false)
  }

  ghost predicate Feasible(geo: Geometry, s: System, events: seq<Event>)
    requires Sized(geo, s)
  {
    events == [] ||
    var front := events[..|events| - 1];
    && Feasible(geo, s, front)
    && CanHappen(geo, Reached(geo, s, front), events[|events| - 1])
  }

  function Reached(geo: Geometry, s: System, events: seq<Event>): (t: System)
    requires Sized(geo, s)
    ensures Sized(geo, t)
  {
    if events == [] then s
    else Next(geo, Reached(geo, s, events[..|events| - 1]), events[|events| - 1])
  }

  /** A replicator as it is set up: target equal to source, both areas clear, nothing going on. */
  ghost predicate Initial(geo: Geometry, s: System) {
    && Sized(geo, s)
    && s.client.target == s.source
    && s.kernel.low == {} && s.kernel.high == {}
    && s.kernel.area == 0 && s.kernel.size > 0 && s.kernel.user == KERNEL
    && s.server.phase == NoRound
    && s.client.thread == NotRunning && !s.client.begun && !s.client.loaded && s.client.last == 0
    && s.pending == [] && !s.terminating
    && s.exposed == {} && s.atRisk == {}
  }
}
