/** The resync thread itself: the nested loops of `restart_resync` over the client's globals, and the
    proof that they take exactly the steps of the step system. */
module ResyncThread {
  import opened Geometry
  import opened ResyncSteps
  import opened Resume
  import opened ThreadLife

  class ResyncThread {
    const geo: Geometry
    const snapshot: seq<Sector>     // what the server reads chunks from
    const target: array<Sector>
    var mode: Mode
    var paused: bool
    var outage: Outage
    var rep: RepState
    var begun: bool
    var loaded: bool
    var bitmap: set<nat>
    var saved: set<nat>
    var last: nat
    var persisted: nat
    var rows: seq<Row>              // the resync table
    var asked: Chunk                // the chunk the request header names
    ghost var thread: Thread        // where control stands
    ghost var written: nat

    ghost predicate Valid() {
      geo.Valid() && |snapshot| == geo.cap == target.Length
    }

    ghost function View(): Client
      reads this, target
    {
      Client(thread, mode, paused, outage, rep, begun, loaded, bitmap, saved, last, persisted, rows, asked, target[..], written)
    }

    /** A pause command (`parse_daemon_request`, case 'n') may have come in. */
    method Arrive(s: Signal)
      requires Valid()
      modifies this`paused, this`rep, this`rows
      ensures View() == if s == PauseComes then Step(geo, snapshot, old(View()), AskPause) else old(View())
    {
      if s == PauseComes && last != 0 {
        paused := true;
        rep := Pause;
        rows := SetStates(rows, Pause);
      }
    }

    /** The end of `request_server_for_metadata`: the bitmap has been received. */
    method LoadBitmap(sent: set<nat>)
      modifies this`bitmap, this`loaded, this`saved
      ensures View() == ResyncSteps.LoadBitmap(old(View()), sent)
    {
      bitmap := sent;
      loaded := true;
      if FirstWordMarked(sent) {
        saved := sent;
      }
    }

    /** `resync_init` and the first lines of `restart_resync`. */
    method Start(bitPos: nat)
      modifies this`mode, this`begun, this`rep, this`persisted, this`rows, this`thread
      ensures View() == Launch(old(View()), bitPos)
    {
      mode := NO_RESYNC;
      begun := true;
      thread := Head(bitPos);
      if bitPos == 0 {
        persisted := 0;
        rows := InsertRow(rows);
        rep := InProgress;
      }
    }

    /** `chunk_read_client` after `get_data`: the server's buffer for this chunk.  Sectors past the
        end of the device are not part of it. */
    method ReadChunk(startLba: nat) returns (buff: seq<Sector>)
      requires Valid()
      ensures |buff| == Min(BUFFER, if startLba < geo.cap then geo.cap - startLba else 0)
      ensures forall j :: 0 <= j < |buff| ==> buff[j] == snapshot[startLba + j]
    {
      if startLba >= geo.cap { return []; }
      buff := snapshot[startLba..Min(startLba + BUFFER, geo.cap)];
    }

    /** `chunk_write_client`: seek to the chunk and write the buffer. */
    method WriteChunk(buff: seq<Sector>, startLba: nat)
      requires Valid() && |buff| == Min(BUFFER, if startLba < geo.cap then geo.cap - startLba else 0)
      modifies target
      ensures forall x: nat :: x < geo.cap ==>
        target[x] == if startLba <= x < startLba + BUFFER then buff[x - startLba] else old(target[x])
    {
      var j := 0;
      while j < |buff|
        invariant 0 <= j <= |buff|
        invariant forall x: nat :: x < geo.cap ==>
          target[x] == if startLba <= x < startLba + j then buff[x - startLba] else old(target[x])
      {
        target[startLba + j] := buff[j];
        j := j + 1;
      }
    }

    /** One chunk of the grain at hand. */
    method CopyChunk(bitPos: nat, chunkId: nat)
      requires Valid() && thread == InGrain(bitPos, chunkId) && chunkId < geo.Chunks() && !paused
      modifies this`thread, this`asked, this`written, target
      ensures View() == Step(geo, snapshot, old(View()), Tick)
    {
      asked := Chunk(bitPos, chunkId);
      var startLba := bitPos * geo.grain + chunkId * BUFFER;
      var buff := ReadChunk(startLba);
      WriteChunk(buff, startLba);
      thread := InGrain(bitPos, chunkId + 1);
      written := written + 1;
      CopiedIs(old(target[..]), target[..], snapshot, startLba, startLba + BUFFER);
    }

    /** `replication_terminate` */
    method ReplicationTerminate()
      requires Valid() && thread == Ending
      modifies this`last, this`rep, this`paused, this`begun, this`loaded, this`rows, this`thread
      ensures View() == Terminate(old(View()))
    {
      hide SetStates;
      if rep != Completed {
        if !paused {
          last := 0;
        }
        rep := Completed;
        paused := false;
        begun := false;
        loaded := false;
        rows := SetStates(rows, Completed);
      }
      thread := NotRunning;
    }

    // -------------------------------------------------------------- the loop's steps, traced

    /** The present state is that after j turns from init, with `look` looks taken. */
    ghost predicate Traced(init: Client, env: seq<Signal>, j: nat, look: nat)
      reads this, target
    {
      && Valid() && Fits(geo, snapshot, init)
      && Turns(geo, snapshot, init, env, j) == Moment(View(), look)
    }

    /** The thread has looked once more, and not acted yet. */
    ghost predicate Looked(init: Client, env: seq<Signal>, j: nat, look: nat)
      reads this, target
    {
      Valid() && HasLooked(geo, snapshot, init, env, j, look, View())
    }

    lemma NothingYet(env: seq<Signal>)
      requires Valid()
      ensures Traced(View(), env, 0, 0)
    {
    }

    method Look(env: seq<Signal>, look: nat, ghost init: Client, ghost j: nat)
      requires Traced(init, env, j, look) && Looks(geo, thread)
      modifies this`paused, this`rep, this`rows
      ensures Looked(init, env, j, look)
      ensures rep == old(rep) || rep == Pause
      ensures paused && !old(paused) ==> PauseAmong(env)
      ensures old(paused) ==> paused
    {
      Arrive(if look < |env| then env[look] else Proceed);
    }

    method EnterGrain(bitPos: nat, ghost env: seq<Signal>, ghost look: nat, ghost init: Client, ghost j: nat)
      requires Looked(init, env, j, look) && thread == Head(bitPos)
      requires bitPos < geo.bits && !paused && (bitPos in bitmap || mode == FULL_RESYNC)
      modifies this`thread
      ensures Traced(init, env, j + 1, look + 1) && thread == InGrain(bitPos, 0)
    {
      ghost var before := View();
      hide HasLooked, Turns;
      thread := InGrain(bitPos, 0);
      Acted(geo, snapshot, init, env, j, look, before);
    }

    method DoChunk(bitPos: nat, chunkId: nat, ghost env: seq<Signal>, ghost look: nat, ghost init: Client, ghost j: nat)
      requires Looked(init, env, j, look) && thread == InGrain(bitPos, chunkId) && chunkId < geo.Chunks() && !paused
      requires SignalAt(env, look) !in {LinkError, DiskError}
      modifies this`thread, this`asked, this`written, target
      ensures Traced(init, env, j + 1, look + 1) && thread == InGrain(bitPos, chunkId + 1)
    {
      ghost var before := View();
      CopyChunk(bitPos, chunkId);
      hide HasLooked, Turns;
      Acted(geo, snapshot, init, env, j, look, before);
    }

    /** The thread gives up on the chunk: send, receive or write error. */
    method Fail(down: Outage, bitPos: nat, chunkId: nat, ghost env: seq<Signal>, ghost look: nat, ghost init: Client,
                ghost j: nat)
      requires SignalAt(env, look) in {LinkError, DiskError}
      requires down == if SignalAt(env, look) == LinkError then LinkDown else DiskDown
      requires Looked(init, env, j, look) && thread == InGrain(bitPos, chunkId) && chunkId < geo.Chunks() && !paused
      modifies this`thread, this`asked, this`outage
      ensures Traced(init, env, j + 1, look + 1) && thread == NotRunning && outage == down
    {
      ghost var before := View();
      hide HasLooked, Turns, SignalAt;
      asked := Chunk(bitPos, chunkId);
      outage := down;
      thread := NotRunning;
      Acted(geo, snapshot, init, env, j, look, before);
    }

    /** After the for loop, left at its end or, once a header has been set, by the pause break: persist the
        position and move on. */
    method LeaveGrain(bitPos: nat, chunkId: nat, ghost env: seq<Signal>, ghost look: nat, ghost init: Client, ghost j: nat)
      requires Valid() && thread == InGrain(bitPos, chunkId)
      requires if chunkId >= geo.Chunks() then Traced(init, env, j, look) else Looked(init, env, j, look) && paused
      modifies this`thread, this`asked, this`persisted, this`rows, this`last
      ensures Traced(init, env, j + 1, if chunkId >= geo.Chunks() then look else look + 1)
      ensures thread == Head(bitPos + 1) && last == bitPos
    {
      ghost var before := View();
      if chunkId < geo.Chunks() {
        asked := Chunk(bitPos, chunkId);
      }
      persisted := bitPos;
      rows := MovePosition(rows, bitPos, rep);
      last := bitPos;
      thread := Head(bitPos + 1);
      hide MovePosition, HasLooked;
      if chunkId < geo.Chunks() {
        Acted(geo, snapshot, init, env, j, look, before);
      }
    }

    method SkipGrain(bitPos: nat, ghost env: seq<Signal>, ghost look: nat, ghost init: Client, ghost j: nat)
      requires Looked(init, env, j, look) && thread == Head(bitPos)
      requires bitPos < geo.bits && !paused && bitPos !in bitmap && mode != FULL_RESYNC
      modifies this`thread, this`last
      ensures Traced(init, env, j + 1, look + 1) && thread == Head(bitPos + 1) && last == bitPos
    {
      ghost var before := View();
      hide HasLooked, Turns;
      last := bitPos;
      thread := Head(bitPos + 1);
      Acted(geo, snapshot, init, env, j, look, before);
    }

    /** Out of the while loop, at its end or because of a pause. */
    method LeaveWhile(bitPos: nat, ghost env: seq<Signal>, ghost look: nat, ghost init: Client, ghost j: nat)
      requires Looked(init, env, j, look) && thread == Head(bitPos) && (bitPos >= geo.bits || paused)
      modifies this`thread
      ensures Traced(init, env, j + 1, look + 1) && thread == OutOfLoop
    {
      ghost var before := View();
      hide HasLooked, Turns;
      thread := OutOfLoop;
      Acted(geo, snapshot, init, env, j, look, before);
    }

    /** The test below the while loop: a paused thread exits, the others go on to terminate the round. */
    method Leave(ghost env: seq<Signal>, ghost look: nat, ghost init: Client, ghost j: nat) returns (leaving: bool)
      requires Looked(init, env, j, look) && thread == OutOfLoop
      modifies this`thread
      ensures Traced(init, env, j + 1, look + 1)
      ensures leaving == paused && thread == if paused then NotRunning else Ending
    {
      ghost var before := View();
      hide HasLooked, Turns;
      leaving := paused;
      thread := if paused then NotRunning else Ending;
      Acted(geo, snapshot, init, env, j, look, before);
    }

    /** The termination, as a step. */
    method Finish(ghost env: seq<Signal>, ghost look: nat, ghost init: Client, ghost j: nat)
      requires Looked(init, env, j, look) && thread == Ending && rep != Completed
      modifies this`last, this`rep, this`paused, this`begun, this`loaded, this`rows, this`thread
      ensures Traced(init, env, j + 1, look + 1)
      ensures thread == NotRunning && rep == Completed && !begun && !paused
      ensures last == if old(paused) then old(last) else 0
    {
      ghost var before := View();
      ReplicationTerminate();
      hide Terminate, HasLooked, Turns;
      Acted(geo, snapshot, init, env, j, look, before);
    }

    /** The for loop over the chunks of one grain; `gone` says the thread has given up. */
    method CopyGrain(bitPos: nat, env: seq<Signal>, look0: nat, ghost init: Client, ghost j0: nat)
      returns (look: nat, gone: bool, at: nat, ghost j: nat)
      requires Valid() && Traced(init, env, j0, look0) && thread == InGrain(bitPos, 0) && rep != Completed
      modifies this`thread, this`asked, this`written, this`paused, this`rep, this`rows, this`outage, target
      ensures rep != Completed
      ensures gone ==> Traced(init, env, j, look) && thread == NotRunning && outage != Up
      ensures !gone ==> thread == InGrain(bitPos, at) && at <= geo.Chunks()
      ensures !gone ==> if at >= geo.Chunks() then Traced(init, env, j, look) else Looked(init, env, j, look) && paused
    {
      hide Traced, Looked, View, SignalAt;
      look, gone, at, j := look0, false, 0, j0;
      var totalIterations := geo.Chunks();
      while at < totalIterations
        invariant at <= totalIterations && totalIterations == geo.Chunks() && !gone
        invariant Traced(init, env, j, look) && thread == InGrain(bitPos, at) && rep != Completed
      {
        Look(env, look, init, j);
        if paused {
          break;
        }
        var signal := SignalAt(env, look);
        if signal in {LinkError, DiskError} {
          Fail(if signal == LinkError then LinkDown else DiskDown, bitPos, at, env, look, init, j);
          gone := true;
        } else {
          DoChunk(bitPos, at, env, look, init, j);
          at := at + 1;
        }
        look, j := look + 1, j + 1;
        if gone {
          return;
        }
      }
    }

    /** One turn of the while loop, up to the next test of its condition. */
    method WhileBody(bitPos: nat, env: seq<Signal>, look0: nat, ghost init: Client, ghost j0: nat)
      returns (look: nat, gone: bool, ghost j: nat)
      requires Valid() && Looked(init, env, j0, look0) && thread == Head(bitPos) && rep != Completed
      requires bitPos < geo.bits && !paused
      modifies this`thread, this`asked, this`written, this`paused, this`rep, this`rows, this`outage, this`persisted, this`last, target
      ensures rep != Completed
      ensures if gone then Traced(init, env, j, look) && thread == NotRunning && outage != Up
              else Looked(init, env, j, look) && thread == Head(bitPos + 1) && last == bitPos
    {
      hide Traced, Looked, View;
      look, gone, j := look0 + 1, false, j0 + 1;
      if bitPos in bitmap || mode == FULL_RESYNC {
        EnterGrain(bitPos, env, look0, init, j0);
        var at;
        look, gone, at, j := CopyGrain(bitPos, env, look, init, j);
        if gone {
          return;
        }
        LeaveGrain(bitPos, at, env, look, init, j);
        look, j := if at >= geo.Chunks() then look else look + 1, j + 1;
      } else {
        SkipGrain(bitPos, env, look0, init, j0);
      }
      Look(env, look, init, j);
    }

    /** From the end of the loop to the end of the thread. */
    method LeaveLoop(bitPos: nat, env: seq<Signal>, look: nat, ghost init: Client, ghost j0: nat)
      returns (late: bool, ghost j: nat)
      requires Looked(init, env, j0, look) && thread == Head(bitPos) && (bitPos >= geo.bits || paused) && rep != Completed
      modifies this`thread, this`paused, this`rep, this`rows, this`last, this`begun, this`loaded
      ensures exists n: nat :: Traced(init, env, j, n)
      ensures thread == NotRunning
      ensures if rep != Completed then paused && begun == old(begun) && !late else last == if late then old(last) else 0
      ensures late ==> PauseAmong(env)
      ensures old(paused) ==> rep != Completed
    {
      hide Traced, Looked, View;
      late, j := false, j0 + 2;
      LeaveWhile(bitPos, env, look, init, j0);
      Look(env, look + 1, init, j0 + 1);
      var leaving := Leave(env, look + 1, init, j0 + 1);
      if !leaving {
        Look(env, look + 2, init, j);
        late := paused;
        Finish(env, look + 2, init, j);
        j := j + 1;
      }
    }

    /** `restart_resync` from bit position `start`, in a world that answers its n-th look with env[n]
        and then lets it proceed.  The thread ends as the signals determine; whatever they are, its effect is
        a run of the step system, and if nothing interferes the uninterrupted one to completion.  `late` says that
        the round completed although a pause had come after the loop's last test for one. */
    method RestartResync(start: nat, env: seq<Signal>) returns (late: bool, ghost actions: seq<Action>)
      requires Valid() && thread == Head(start)
      requires rep != Completed
      modifies this, target
      ensures Valid() && EndsAs(geo, snapshot, old(View()), env, View())
      ensures Possible(geo, snapshot, old(View()), actions) && View() == After(geo, snapshot, old(View()), actions)
      ensures thread == NotRunning && (rep != Completed ==> begun == old(begun))
      ensures OnlyWhatWasMet(old(View()), env, View())
      ensures rep == Completed || paused || outage != Up
      ensures rep == Completed && start < geo.bits ==> last == if late then geo.bits - 1 else 0
      ensures late ==> rep == Completed && PauseAmong(env)
      ensures Calm(env) ==> OnlyTicks(actions) && outage == old(outage) && !late
      ensures Calm(env) ==> if old(paused) then paused else rep == Completed
    {
      ghost var init, j := View(), 0;
      assert init.thread == Head(start) && init.rep == rep && init.outage == outage && init.paused == paused;
      hide Traced, Looked, View, OnlyTicks, Turns, Possible, After, EndsAs, OnlyWhatWasMet, PauseAmong;
      NothingYet(env);
      Look(env, 0, init, j);
      late, j := Loop(start, env, init);
      actions := Ended(init, env, j);
    }

    /** The while loop, and what is below it. */
    method Loop(start: nat, env: seq<Signal>, ghost init: Client) returns (late: bool, ghost j: nat)
      requires Valid() && Looked(init, env, 0, 0) && thread == Head(start) && rep != Completed
      modifies this, target
      ensures exists n: nat :: Traced(init, env, j, n)
      ensures thread == NotRunning && (rep != Completed ==> begun == old(begun))
      ensures rep == Completed || paused || outage != Up
      ensures rep == Completed && start < geo.bits ==> last == if late then geo.bits - 1 else 0
      ensures late ==> rep == Completed && PauseAmong(env)
    {
      hide Traced, Looked, View, PauseAmong;
      late, j := false, 0;
      var bitPos, look, gone := start, 0, false;
      while bitPos < geo.bits && !paused
        invariant Looked(init, env, j, look) && thread == Head(bitPos) && rep != Completed
        invariant begun == old(begun) && start <= bitPos && (start < geo.bits ==> bitPos <= geo.bits)
        invariant bitPos > start ==> last == bitPos - 1
        decreases geo.bits - bitPos
      {
        look, gone, j := WhileBody(bitPos, env, look, init, j);
        if gone {
          return;
        }
        bitPos := bitPos + 1;
      }
      late, j := LeaveLoop(bitPos, env, look, init, j);
    }

    /** What the trace of the whole life says. */
    ghost method Ended(init: Client, env: seq<Signal>, j: nat) returns (actions: seq<Action>)
      requires exists n: nat :: Traced(init, env, j, n)
      requires thread == NotRunning && init.thread.Head? && init.rep != Completed
      ensures Valid() && Fits(geo, snapshot, init) && EndsAs(geo, snapshot, init, env, View())
      ensures Possible(geo, snapshot, init, actions) && View() == After(geo, snapshot, init, actions)
      ensures OnlyWhatWasMet(init, env, View())
      ensures Calm(env) ==> OnlyTicks(actions) && outage == init.outage
      ensures Calm(env) ==> if init.paused then paused else rep == Completed
    {
      hide Turns, Possible, After, OnlyTicks;
      assert Turns(geo, snapshot, init, env, j).c == View();
      actions := TurnsAreRun(geo, snapshot, init, env, j);
      OnlyBySignal(geo, snapshot, init, env, j);
      if Calm(env) {
        CalmTurns(geo, snapshot, init, env, j);
      }
    }

    /** One thread's life within an open round. */
    method RunThread(env: seq<Signal>, ghost dirty: set<nat>, ghost target0: seq<Sector>) returns (late: bool)
      requires Valid() && thread == Head(last)
      requires Open(geo, snapshot, dirty, View()) && CleanUntouched(geo, dirty, target0, View())
      modifies this, target
      ensures Round(geo, snapshot, dirty, View()) && CleanUntouched(geo, dirty, target0, View())
      ensures Valid() && EndsAs(geo, snapshot, old(View()), env, View())
      ensures thread == NotRunning && (rep != Completed ==> Open(geo, snapshot, dirty, View()))
      ensures rep == Completed ==> last == if late then geo.bits - 1 else 0
      ensures late ==> PauseAmong(env)
      ensures Calm(env) ==> outage == old(outage) && if old(paused) then paused else rep == Completed
    {
      ghost var before := View();
      OpenFacts(geo, snapshot, dirty, before);
      hide Open, Closed, Round, CleanUntouched, Possible, After, OnlyTicks;
      ghost var actions;
      late, actions := RestartResync(last, env);
      RunKeepsRound(geo, snapshot, dirty, before, actions);
      RunLeavesClean(geo, snapshot, dirty, target0, before, actions);
      if rep != Completed {
        BegunIsOpen(geo, snapshot, dirty, View());
      }
    }

    /** `restart_conn_client` or `restart_disk`. */
    method Restart(ghost dirty: set<nat>, ghost target0: seq<Sector>)
      requires Valid() && thread == NotRunning && outage != Up
      requires Open(geo, snapshot, dirty, View()) && CleanUntouched(geo, dirty, target0, View())
      modifies this
      ensures Open(geo, snapshot, dirty, View()) && CleanUntouched(geo, dirty, target0, View())
      ensures View() == Step(geo, snapshot, old(View()), Recover)
    {
      ghost var before := View();
      Relaunched(geo, snapshot, dirty, target0, before, Recover);
      hide Open, CleanUntouched;
      outage := Up;
      Start(last);
    }

    /** The resume command. */
    method ResumeRound(ghost dirty: set<nat>, ghost target0: seq<Sector>)
      requires Valid() && thread == NotRunning && outage == Up
      requires Open(geo, snapshot, dirty, View()) && CleanUntouched(geo, dirty, target0, View())
      modifies this
      ensures Open(geo, snapshot, dirty, View()) && CleanUntouched(geo, dirty, target0, View())
      ensures View() == Step(geo, snapshot, old(View()), AskResume)
    {
      ghost var before := View();
      Relaunched(geo, snapshot, dirty, target0, before, AskResume);
      hide Open, CleanUntouched;
      paused := false;
      rep := Resume;
      rows := SetStates(rows, Resume);
      Start(last);
    }

    /** Whichever the stopped round waits for. */
    method Relaunch(ghost dirty: set<nat>, ghost target0: seq<Sector>)
      requires Valid() && thread == NotRunning
      requires Open(geo, snapshot, dirty, View()) && CleanUntouched(geo, dirty, target0, View())
      modifies this
      ensures Open(geo, snapshot, dirty, View()) && CleanUntouched(geo, dirty, target0, View())
      ensures Valid() && View() == Step(geo, snapshot, old(View()), Restarting(old(View())))
      ensures thread == Head(last) && outage == Up && last == old(last)
      ensures if old(outage) != Up then paused == old(paused) else !paused
    {
      OpenFacts(geo, snapshot, dirty, View());
      hide Open, CleanUntouched;
      if outage != Up {
        Restart(dirty, target0);
      } else {
        ResumeRound(dirty, target0);
      }
    }

    /** A whole round: command 'r', then restarts after whatever stops the thread.  The n-th thread meets
        envs[n] and ends as that determines; later ones meet no trouble.  The round completes, and leaves the
        target that its bitmap and snapshot determine.  The position is reset unless, as `late` says, a pause came
        after the last thread's last test for one. */
    method ResyncRound(envs: seq<seq<Signal>>) returns (late: bool, ghost lives: seq<Life>)
      requires Valid() && Ready(geo, View())
      modifies this, target
      ensures rep == Completed && thread == NotRunning
      ensures last == if late then geo.bits - 1 else 0
      ensures late ==> exists n :: 0 <= n < |envs| && PauseAmong(envs[n])
      ensures target[..] == Merged(geo, old(bitmap), old(target[..]), snapshot)
      ensures Lives(geo, snapshot, Begin(old(View()), NO_RESYNC), envs, lives)
      ensures lives != [] && lives[|lives| - 1].end == View()
    {
      ghost var dirty, target0 := bitmap, target[..];
      BeginOpens(geo, snapshot, View(), NO_RESYNC);
      Start(0);
      written := 0;
      late := false;
      var n := 0;
      assert CleanUntouched(geo, dirty, target0, View());
      OpenFacts(geo, snapshot, dirty, View());
      ghost var first := View();
      lives := [];
      hide Open, Closed, Round, CleanUntouched, View, Step, Restarting, EndsAs;
      while rep != Completed
        invariant Round(geo, snapshot, dirty, View()) && CleanUntouched(geo, dirty, target0, View())
        invariant if rep != Completed then thread == Head(last) && Open(geo, snapshot, dirty, View())
                  else thread == NotRunning && last == if late then geo.bits - 1 else 0
        invariant late ==> exists n :: 0 <= n < |envs| && PauseAmong(envs[n])
        invariant n == |lives| && Lives(geo, snapshot, first, envs, lives)
        invariant if n == 0 then rep != Completed && View() == first
                  else View() == if rep == Completed then lives[n - 1].end
                                 else Step(geo, snapshot, lives[n - 1].end, Restarting(lives[n - 1].end))
        decreases rep != Completed, (if n < |envs| then |envs| - n else 0), (if paused then 1 else 0) + (if outage != Up then 1 else 0)
      {
        ghost var start := View();
        late := RunThread(if n < |envs| then envs[n] else [], dirty, target0);
        OneMoreLife(geo, snapshot, first, envs, lives, Life(start, View()));
        lives := lives + [Life(start, View())];
        if rep != Completed {
          Relaunch(dirty, target0);
          OpenFacts(geo, snapshot, dirty, View());
        }
        n := n + 1;
      }
      FinishedTarget(geo, snapshot, dirty, target0, View());
    }
  }

  lemma OpenFacts(geo: Geometry, snap: seq<Sector>, dirty: set<nat>, c: Client)
    requires Open(geo, snap, dirty, c)
    ensures Fits(geo, snap, c) && Round(geo, snap, dirty, c) && c.begun && c.rep != Completed && c.last < geo.bits
    ensures c.thread == NotRunning ==> c.paused || c.outage != Up
  {
  }

  lemma Relaunched(geo: Geometry, snap: seq<Sector>, dirty: set<nat>, target0: seq<Sector>, c: Client, a: Action)
    requires Open(geo, snap, dirty, c) && CleanUntouched(geo, dirty, target0, c) && c.thread == NotRunning
    requires a == if c.outage != Up then Recover else AskResume
    ensures Enabled(geo, c, a) && c.rep != Completed
    ensures var d := Step(geo, snap, c, a); Open(geo, snap, dirty, d) && CleanUntouched(geo, dirty, target0, d)
  {
    hide DoneBelow;
  }

  lemma FinishedTarget(geo: Geometry, snap: seq<Sector>, dirty: set<nat>, target0: seq<Sector>, c: Client)
    requires Round(geo, snap, dirty, c) && c.rep == Completed && CleanUntouched(geo, dirty, target0, c)
    ensures |target0| == |snap| && c.target == Merged(geo, dirty, target0, snap)
  {
    forall x: nat | x < geo.cap
      ensures c.target[x] == Merged(geo, dirty, target0, snap)[x]
    {
      GrainInBitmap(geo, x);
    }
  }

  lemma CopiedIs(was: seq<Sector>, now: seq<Sector>, from: seq<Sector>, lo: nat, hi: nat)
    requires |was| == |now| == |from|
    requires forall x: nat :: x < |now| ==> now[x] == if lo <= x < hi then from[x] else was[x]
    ensures now == Copied(was, from, lo, hi)
  {
  }
}
