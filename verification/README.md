# Greko replication: a verified model

Greko replicates a block device. A kernel module marks the grain of every write in one of two bitmap
areas. When the client asks for metadata, the server daemon copies the area being marked, tells the
kernel to FLIP to the other one, and serves a snapshot of the disk. The client's resync thread walks the
copied bitmap and transfers each marked grain chunk by chunk, surviving pauses, link and disk failures
and restarts of its daemon. When it is done the server clears the area it handed out.

This project states what that protocol is for, and proves it of a model that follows the Linux code
branch by branch.

## Layout

| file | what it holds |
|---|---|
| Words.dfy | 64-bit words bit by bit; byte order |
| Geometry.dfy | sectors, grains, chunks; which grains a write marks |
| ResyncSteps.dfy | the resync client as a step system: thread, commands, failures, restarts |
| Resume.dfy, Coverage.dfy, Progress.dfy, Straight.dfy | what its runs keep, write and cost; when they end; where a thread gets alone |
| Wire.dfy, WireSafety.dfy, WireLoss.dfy | several resync threads on one request header and one socket, chunk transfers in pieces; what they keep and what they lose |
| Restart.dfy, Leftover.dfy, Overlap.dfy, EarlyResume.dfy, FullResync.dfy | exactly when a crash, a late pause, an early resume (at a moment; in a round) and a restarted full resync lose nothing |
| Replication.dfy | the whole system: writes, snapshot, kernel areas, server, client, messages |
| Safety.dfy, Guarantees.dfy, Landed.dfy | its invariant, the theorems over whole runs, and what the disks then hold |
| KernelBitmap.dfy | the kernel's bitmap code over an array of words |
| BitmapServer.dfy | the server's copy, load and clear code over the mapped memory |
| ThreadLife.dfy | what a resync thread does with the pauses and errors it meets, determined by them alone |
| ResyncThread.dfy | the resync thread's nested loops, proved to do exactly that |
| ReplicationRound.dfy | one round through the imperative code of both sides |
| BitmapViews.dfy | the same bytes read as 64-bit words, 32-bit words, and bytes from the top bit |
| Handshake.dfy | the SYN / SYN_ACK exchange and the addresses both sides compute |
| FindNextBit.dfy | bit search in little-endian order on a big-endian machine |
| RadixTree.dfy | successor search in the id radix tree |
| Options.dfy | the option type |

The step systems and the imperative classes meet in the classes' `View()` functions: each method's
postcondition is the step it takes (`MarkGrains`, `CopyWord`, `FlipArea`, `ClearHandedOut`, or a run of
client actions).

## Assumptions

These are `requires` clauses, or guards of `Replication.CanHappen` and `ResyncSteps.Enabled`.

- Operators follow the documented order: a snapshot before each metadata request, metadata before resync
  (`atdr_base_code/HowtoRun/single_disk_20GB_steps.txt:12-15`). When the snapshot is taken the client has
  no thread and no position left over, and no termination message is on its way. A request abandons the
  round of a client that was cut off at position 0: recovery does not restart that round in the model.
- The kernel's grain in sectors is the negotiated grain, the chunk is the 4096-byte buffer (eight sectors)
  and divides the grain, the bitmap covers the device, and server and client bitmaps have one size, as
  `atdr_base_code/atdr_scripts/atdr_run.sh:15-21` computes them. `Geometry.ExactlyOnceIff` says what other
  sizes the loop could live with.
- Writes are not restricted, and come in between any two words of the bitmap copy too. A write that was
  marked before a FLIP and reached the disk after that round's snapshot is recorded as exposed; the theorems
  say what holds with and without such writes.
- One resync thread at a time: a resume waits for the old thread to be gone and for recovery to have dealt
  with an outage. The code does not test for either. `Overlap.MayResumeNowIff` and
  `EarlyResume.ResumesNeedNotWaitIff` say when the wait is needed. Recovery starts a thread only when none runs;
  a thread that has marked an outage does nothing more.
- A crash of the client daemon finds the bitmap of the round in the file and one open row in the table, at the
  round's position; the last follows from the others (`Restart.GuardIsOneOpenRow`). `Restart.CrashIsSurvivedIff`,
  `Restart.LoneCrashesAreSurvivedIff` and `Restart.CrashesAreSurvivedIff` are about crashes at any moment and say
  what this assumption leaves out.
- In the step system a chunk transfer happens or fails as a whole. In Wire it is four steps (set the header, send
  it, receive, write), and the steps of several threads interleave; requests and replies themselves stay whole.
- An operator's command happens as a whole.
- There is one partner, numbered 0. A restarted daemon takes the partner of its i-th open row from the i-th partner
  slot (`atdr_base_code/user/atdr_linux/atdr_db.c:600-602`), and slots it has not filled say 0.
- A cancelled thread ends at once. The thread cancelled is the one created last for the partner, whoever asks.

## Where the code falls short

Each is an exact condition, proved in both directions.

- A write marked before the FLIP that lands after the snapshot can be forgotten for good, on any device and
  whichever sector it changes; marked later or landed earlier it cannot: `Guarantees.OneWriteForgottenIff`.
- The bitmap file is written only when the first 64-bit word of the bitmap is nonzero; otherwise a restarted daemon
  finishes an earlier bitmap in place of the round's: `Restart.LoneCrashesAreSurvivedIff`.
- A restarted daemon creates a thread for each open row, all for the one client. It empties the client's bitmap again
  before each, and the first thread can run to the end over the empty bitmap; when the round is paused, that thread
  cancels the second in its own place and terminates. So a crash with something left to copy is survived only if
  one row is open: `Restart.CrashIsSurvivedIff`. And every round that covers a sector can come to have two: a link
  failure at position 0 or a resume there adds a row, and a pause reopens the rows earlier rounds left:
  `Restart.CrashesAreSurvivedIff`.
- Even one thread would restart at the position of the oldest open row, which may stand past grains of the round:
  `Restart.FirstRowWillDoIff`.
- A pause that comes after the loop's last test for one completes the round but keeps its position, and the
  next round can skip grains: `Leftover.PositionResetIff`, `Leftover.NextRoundIsSafeIff`.
- A resume that comes before the old thread is gone finds it anywhere between setting a header and releasing
  everything. It may skip grains it was paused in, cancel the new thread in its own place, or send the new thread's
  request instead of its own termination, after which every chunk is written with the buffer of the one before. All
  is well only if the old thread is gone, or no sector is left to transfer, or only one chunk is and the old
  thread has not skipped it: `Overlap.MayResumeNowIff`. Which rounds can come to such a moment at all:
  `EarlyResume.ResumesNeedNotWaitIff`.
- A restart drops the full-resync mode: `FullResync.FullSurvivesRestartsIff`. No Linux command reaches the
  mode: its one caller answers a verification request that is compiled out
  (`atdr_base_code/user/atdr_linux/atdr_resync.c:190`).
- The fast bitmap path and the per-bit change loop stop silently after the fifth page, which the loop the
  write path uses does not: `KernelBitmap.FastEqualsSlowIff`.
- A radix search that starts inside a missing subtree can step over entries right behind it:
  `RadixTree.SuccessorFromAnyStartIff`.
- The resync loop moves its whole buffer whatever chunk size was negotiated: `Geometry.ExactlyOnceIff`.

## Model

| member | source | states |
|---|---|---|
| Guarantees.NoUpdateLost | atdr_base_code/user/atdr_linux/atdr_bitmap_server.c:70-136 | In every state of every run of writes, word copies, rounds, pauses, failures, restarts and terminations that the assumptions allow: where target and source differ, the grain is marked in one of the two areas, or was written by an exposed write and not marked since |
| Guarantees.QuietRunsLoseNothing | atdr_base_code/kernel/atdr_linux/atdr_req.c:76-84 | In a run without such writes no update is ever forgotten: every differing sector is marked |
| Guarantees.MarkedAgainIsSafe | atdr_base_code/kernel/atdr_linux/atdr_req.c:76-84 | Whatever was exposed before: once a write has marked a grain again, and as long as no write is exposed after that, its sectors are in sync or the grain is marked |
| Guarantees.OneWriteForgottenIff | atdr_base_code/user/atdr_linux/atdr_bitmap_server.c:96-116 | For every device, initial state and write that changes a sector, marked at one moment of a request and landing at another, any word of the copy included: some continuation leaves that sector different on both sides with no mark left, if and only if the write was marked before the FLIP and landed after the snapshot; the source can then hold the data written, and the target what was there before it |
| Guarantees.PointInTimeCopy | atdr_base_code/user/atdr_linux/atdr_resync.c:103-196 | If the area flipped to was empty, a finished round has made the whole target the snapshot, not only its dirty grains |
| Guarantees.EveryRoundIsPointInTime | atdr_base_code/user/atdr_linux/replic_server.c:275-297 | When requests follow one another, termination leaves the area the next FLIP needs empty, so every finished round of the run is a point-in-time copy |
| Guarantees.MarksAreConserved | atdr_base_code/user/atdr_linux/atdr_bitmap_server.c:220-234 | A mark leaves an area only when the server terminates a round; it was in the bitmap sent for that round or belongs to an exposed write, and its sectors are in sync, marked again, or at risk |
| Guarantees.FlipAndClearAreSafe | atdr_base_code/kernel/atdr_linux/atdr_main.c:224-245 | In every reachable state KERNEL means the base area and USER the other; after the FLIP server and kernel agree, the handed-out area is frozen, and clearing never touches the area being marked |
| Guarantees.LostTermination | atdr_base_code/user/atdr_linux/replic_server.c:275-297 | In every reachable state with a termination on its way: if it is lost, every mark of both areas stays, and the next request can begin |
| Guarantees.TerminatedOnce | atdr_base_code/user/atdr_linux/replic_server.c:275-297 | The first termination of a round empties the handed-out area and leaves the other; a repeated one changes nothing, whatever has been marked in between |
| Landed.SourceIsWhatLandedLast | atdr_base_code/kernel/atdr_linux/atdr_req.c:76-84 | After every run the source holds, in every sector, the data of the write over it that landed last, or the initial contents if none did |
| Landed.WritesAreConserved | atdr_base_code/kernel/atdr_linux/atdr_req.c:76-84 | The writes marked in a run are those that have landed and those still to land, each as often |
| Landed.TargetIsWhatLandedBefore | atdr_base_code/user/atdr_linux/replic_server.c:49-297 | When a round of an orderly run without exposed writes is finished, the target holds, in every sector, the data that landed there last before the round's snapshot |
| Safety.EventKeepsInv | atdr_base_code/user/atdr_linux/replic_server.c:49-82 | The joint invariant of kernel, server and client survives every event of the system |
| Safety.ClearedGrainsAreSynced | atdr_base_code/user/atdr_linux/atdr_bitmap_server.c:220-234 | When the server clears the area it handed out, every sector is in sync, marked in the other area, or of an exposed write not marked since |
| Resume.StepKeepsRound | atdr_base_code/user/atdr_linux/atdr_resync.c:103-178 | Every client step keeps the round invariant: dirty grains below the saved positions are copied, and the thread has copied everything before the place where it stands |
| Resume.ResumeIsTransparent | atdr_base_code/user/atdr_linux/atdr_recovery.c:10-75 | Any number of pauses, failures and restarts, given one thread at a time, ends with the target the bitmap and snapshot determine: dirty grains copied, clean grains untouched |
| Resume.ResumePositionIsSafe | atdr_base_code/user/atdr_linux/atdr_resync.c:174-177 | In every state of an open round each dirty grain below the resume position, and below the persisted one, is copied |
| Coverage.TargetIsWhatWasWritten | atdr_base_code/user/atdr_linux/atdr_resync.c:103-178 | In any run a sector some step wrote holds the snapshot's contents and any other keeps its own |
| Coverage.EachDirtySectorOnce | atdr_base_code/user/atdr_linux/atdr_resync.c:79-178 | An uninterrupted round writes each sector of each dirty grain exactly once and no sector of a clean grain |
| FullResync.FullResyncCopiesAll | atdr_base_code/user/atdr_linux/atdr_resync.c:106 | A full resync that completes without a restart makes the target the snapshot, whatever the target and the bitmap were |
| Guarantees.FullRoundCopiesAll | atdr_base_code/user/atdr_linux/atdr_resync.c:106 | In every run of the system, a round begun in full mode that completes without a restart makes the target the snapshot, whatever was marked |
| FullResync.FullSurvivesRestartsIff | atdr_base_code/user/atdr_linux/atdr_recovery.c:68-75 | A full resync copies the device whatever restarts it, if and only if its bitmap marks every grain that holds a sector |
| Progress.InterruptionCost | atdr_base_code/user/atdr_linux/atdr_resync.c:79-178 | The transfers of a run of a round with k interruptions are at most (set bits + 2k) * (grain / chunk) |
| Progress.UninterruptedCost | atdr_base_code/user/atdr_linux/atdr_resync.c:79-178 | An uninterrupted round makes exactly (set bits) * (grain / chunk) transfers |
| Coverage.WrittenIsTransferred | atdr_base_code/user/atdr_linux/atdr_resync.c:110-166 | In every run the client's count of chunks written grows by the number of transfers of the run |
| Progress.RankDecreases | atdr_base_code/user/atdr_linux/atdr_resync.c:103-178 | Every step that is not an interruption brings the round nearer its end; an interruption costs at most one more pass |
| Progress.NeverStuck | atdr_base_code/user/atdr_linux/atdr_recovery.c:79-139 | A round that is not finished can always go on: by the thread, by recovery, or by a resume |
| Progress.RunsAreBounded | atdr_base_code/user/atdr_linux/atdr_resync.c:33-178 | A run with k interruptions that has not completed has at most (k + 3) passes of steps behind it |
| Progress.RoundCompletes | atdr_base_code/user/atdr_linux/atdr_resync.c:33-66 | From every state of an open round there is a run without interruptions that reaches RESYNC_COMPLETED |
| Restart.CrashIsSurvivedIff | atdr_base_code/user/atdr_linux/atdr_db.c:596-632 | In every state of every run of a round whose bitmap reached the file, with something left to copy: a crash of the client daemon loses nothing, whatever follows, if and only if one row of the table is open |
| Restart.LoneCrashesAreSurvivedIff | atdr_base_code/user/atdr_linux/atdr_daemon.c:146-154 | A round survives every crash that finds one open row, wherever it strikes, if and only if its bitmap covers no sector or its first 64-bit word is nonzero |
| Restart.CrashesAreSurvivedIff | atdr_base_code/user/atdr_linux/atdr_db.c:596-632 | A round survives every crash if and only if its bitmap covers no sector: any other can come to have two open rows |
| Restart.FirstRowWillDoIff | atdr_base_code/user/atdr_linux/atdr_db.c:33-61 | Were one thread started, at the position of the first open row, a round would survive every crash if and only if its bitmap covers no sector, or reached the file and the oldest row stands past none of its grains but the first two |
| Restart.GuardIsOneOpenRow | atdr_base_code/user/atdr_linux/atdr_db.c:85-142 | In every state of every run of a round whose bitmap reached the file, one open row means that the row has the position and the state of the round, so that the step system's crash can happen exactly then |
| Restart.SeveralLose | atdr_base_code/user/atdr_linux/atdr_db.c:600-624 | From any state with several open rows, paused or not, and a sector left to copy, some interleaving of the starting daemon and its threads tells the server to terminate with that sector uncopied |
| Restart.LoopAlone | atdr_base_code/user/atdr_linux/atdr_db.c:600-624 | If no thread moves before the daemon's loop is through, there is one thread at the position for each open row, over the bitmap of the file |
| Restart.OneRowIsOneThread | atdr_base_code/user/atdr_linux/atdr_db.c:600-624 | With one open row the loop comes to the thread, bitmap, header and target of the step system's crash |
| Restart.DoneStartsNone | atdr_base_code/user/atdr_linux/atdr_db.c:618-629 | Once the round is completed, rows still to come start no thread |
| Restart.SecondRow | atdr_base_code/user/atdr_linux/atdr_resync.c:94-101 | Any round over completed rows that covers a sector can come, by a link failure, by a pause, crash and resume, or by a pause, to have two open rows before that sector is copied |
| Restart.StepSurvives | atdr_base_code/user/atdr_linux/atdr_db.c:85-142 | Every step keeps every row a restart could use at a position below which all is copied, if the oldest row is harmless |
| Restart.LosesWithStaleBitmap | atdr_base_code/user/atdr_linux/atdr_db.c:592-630 | A crash with one open row after which the daemon restarts from a stale bitmap file, completes, and leaves a dirty sector uncopied |
| Restart.LosesWithOlderRow | atdr_base_code/user/atdr_linux/atdr_db.c:33-61 | A run that is paused, crashes, restarts, even with one thread, at the position of a row of an earlier round, completes, and has skipped a dirty sector |
| Restart.FirstRoundLeavesRow | atdr_base_code/user/atdr_linux/atdr_resync.c:60-64 | A first round for grain g completes and leaves a completed row at g in the table |
| Leftover.PositionResetIff | atdr_base_code/user/atdr_linux/atdr_resync.c:33-66 | The step that ends a round resets the position if and only if no pause has come since the loop's last test for one; otherwise the last bit is left over |
| Leftover.PausedAtEndingIff | atdr_base_code/user/atdr_linux/atdr_resync.c:180-193 | At the end of the loop a round is paused exactly when a pause has come there and the device has more than one grain |
| Leftover.EndedStaysEnded | atdr_base_code/user/atdr_linux/atdr_daemon.c:635-668 | A round that has ended with its position reset stays ended: a pause or resume command changes nothing, and a daemon that crashes then comes back without a thread |
| Leftover.PositionMustBeReset | atdr_base_code/user/atdr_linux/atdr_recovery.c:68-75 | Whatever bitmap comes next, the next round copies all its grains if and only if the position was reset |
| Leftover.NextRoundIsSafeIff | atdr_base_code/user/atdr_linux/atdr_resync.c:33-66 | A round leaves its client fit for any next round if and only if no pause came at its very end, or the device has one grain |
| Leftover.LosesWithLeftover | atdr_base_code/user/atdr_linux/atdr_resync.c:41-45 | From any ready client on a device of two grains or more: a first round that completes with a position left over, and a second that completes and has skipped its grain |
| WireSafety.LoneIsSafe | atdr_base_code/user/atdr_linux/atdr_resync.c:68-198 | A thread alone on the wire, taking its chunks in pieces from a position below which all is copied, never has the server told to terminate before every dirty grain is the snapshot's |
| WireSafety.SingleIsSafe | atdr_base_code/user/atdr_linux/atdr_resync.c:103-178 | Any number of threads with one and the same chunk to transfer lose nothing, under every schedule |
| WireSafety.SectorlessIsSafe | atdr_base_code/user/atdr_linux/atdr_resync.c:103-178 | Any number of threads with no sector to transfer leave the target as it is, under every schedule |
| WireSafety.ToldAnswersNone | atdr_base_code/user/atdr_linux/replic_server.c:104-109 | Under every schedule a server told to terminate sends no further buffer |
| WireSafety.DoneSendsNothing | atdr_base_code/user/atdr_linux/atdr_resync.c:127-131 | Once the round is completed and no thread is at its termination, threads send nothing more, neither requests nor a second termination |
| WireSafety.ToldIsDone | atdr_base_code/user/atdr_linux/atdr_resync.c:50-60 | When the server has been told and every thread is gone, the round is completed |
| WireLoss.RunOn | atdr_base_code/user/atdr_linux/atdr_resync.c:68-198 | From any place, a thread that has the wire to itself comes to its termination; it has changed nothing below its place, wrote only right buffers, and leaves its last chunk in the header |
| WireLoss.OutOfStep | atdr_base_code/user/atdr_linux/atdr_resync.c:33-50 | A thread about to terminate whose header a new thread turns back into a data request: from then on the new thread writes every chunk with the buffer of an earlier one, and terminates |
| WireLoss.TwoThreadsLose | atdr_base_code/user/atdr_linux/atdr_resync.c:79-166 | Two threads with more than one chunk between them: whatever sector there is to transfer, some schedule leaves it wrong when the server is told to terminate |
| Wire.RightWrite | atdr_base_code/user/atdr_linux/atdr_resync.c:110-166 | The buffer of a chunk written in that chunk's place is the transfer of the step system, also where the device ends inside it |
| Overlap.MayResumeNowIff | atdr_base_code/user/atdr_linux/atdr_daemon.c:660-678 | In a paused round with the old thread at any of its steps, a resume that does not wait loses nothing, whatever is on the disks and under every schedule of the two threads, if and only if the old thread is gone, or no sector is to be transferred from the resume position on, or one chunk is and the old thread has not skipped it |
| Overlap.SkipIsLost | atdr_base_code/user/atdr_linux/atdr_resync.c:103-187 | An old thread that has gone past a sector for the pause, breaks off its grain, or has left the loop or is about to cancel when the resume comes, can complete the round without that sector |
| Overlap.TransferIsLost | atdr_base_code/user/atdr_linux/atdr_resync.c:79-166 | An old thread that skips nothing and a new one, with more than one chunk to transfer, can fall out of step and leave a sector wrong |
| EarlyResume.ResumesNeedNotWaitIff | atdr_base_code/user/atdr_linux/atdr_daemon.c:660-678 | A round is safe from resumes that do not wait, in every state any run brings it to and with the old thread anywhere in its step, if and only if no dirty grain but the first holds a sector, and the first is clean or holds none, or is the only chunk, or no crash can bring a paused round back to it (grain 1 is dirty too, or there is no grain 1) |
| EarlyResume.BrokenOffIsLost | atdr_base_code/user/atdr_linux/atdr_resync.c:120-124 | The run of such a loss for a sector in grain 2 or above: paused in the grain, broken off, resumed, completed by the old thread without it |
| EarlyResume.EmptyHeaderIsLost | atdr_base_code/user/atdr_linux/atdr_resync.c:33-50 | The run of such a loss for a sector in grain 1: paused, crashed and back with an empty header, resumed as the thread leaves the loop |
| EarlyResume.BackAtZeroIsLost | atdr_base_code/user/atdr_linux/atdr_resync.c:79-166 | The run of such a loss for a sector in grain 0 only: paused past it, crashed back to position 0, resumed, both threads transferring everything |
| Geometry.WriteIsCovered | atdr_base_code/kernel/atdr_linux/atdr_bitmap.c:257-301 | Every written sector of the device lies in a marked grain |
| Geometry.MarkedIff | atdr_base_code/kernel/atdr_linux/atdr_bitmap.c:257-301 | The grains marked are exactly those of the sectors from the first written to the exclusive end, that one included; addresses beyond the bitmap count for its last grain |
| Geometry.AtMostOneExtraGrain | atdr_base_code/kernel/atdr_linux/atdr_bitmap.c:288-301 | A marked grain that holds no written sector is the one that begins where the write ends |
| Geometry.GrainInBitmap | atdr_base_code/kernel/atdr_linux/atdr_bitmap.c:257-283 | Each sector of the device has a bit, and it is the bit the position search finds |
| Geometry.ChunksPartition | atdr_base_code/user/atdr_linux/atdr_resync.c:146-147 | The buffers at (bit, chunk) partition the sectors the bitmap covers |
| Geometry.ExactlyOnceIff | atdr_base_code/user/atdr_linux/atdr_resync.c:72-166 | For any negotiated sizes: every sector of a grain is transferred once and nothing outside it, if and only if the chunk is the buffer and divides the grain, or the grain is one buffer and one chunk |
| KernelBitmap.DeviceBitmap.ChangeBit | atdr_base_code/kernel/atdr_linux/atdr_bitmap.c:118-141 | One bit of one word takes the value and nothing else changes; a null page is an error and changes nothing |
| KernelBitmap.DeviceBitmap.ChangeBits | atdr_base_code/kernel/atdr_linux/atdr_bitmap.c:143-175 | Bits start to the clamped end take the value as far as pages can be reached, and nothing else changes, in either area |
| KernelBitmap.DeviceBitmap.SetWords | atdr_base_code/kernel/atdr_linux/atdr_bitmap.c:90-102 | All bits of the words start to end - 1 of a page are set and nothing else changes |
| KernelBitmap.DeviceBitmap.SetBitsFast | atdr_base_code/kernel/atdr_linux/atdr_bitmap.c:177-228 | Across every mix of partial words, whole words and pages: exactly the bits begin to end are set, as far as pages can be reached, inside the area |
| KernelBitmap.DeviceBitmap.SetBits | atdr_base_code/kernel/atdr_linux/atdr_bitmap.c:239-255 | Exactly the bits first to last are set |
| KernelBitmap.AssignedUnique | atdr_base_code/kernel/atdr_linux/atdr_bitmap.c:177-228 | Setting a range of bits has one outcome: two memories that both result from it are equal word for word |
| KernelBitmap.FastEqualsSlowIff | atdr_base_code/kernel/atdr_linux/atdr_bitmap.c:109-255 | Fast path and per-bit loop leave the same memory if and only if every bit of the range beyond the fifth page was set already |
| KernelBitmap.DeviceBitmap.FindPos | atdr_base_code/kernel/atdr_linux/atdr_bitmap.c:257-283 | The search finds the quotient by the grain, clamped to the last bit; the last bit for a grain below one sector |
| KernelBitmap.DeviceBitmap.SetBitmap | atdr_base_code/kernel/atdr_linux/atdr_bitmap.c:288-301 | A write adds to the area being marked exactly the grains from that of its first sector to that of its exclusive end, and leaves the other area alone |
| KernelBitmap.DeviceBitmap.Flip | atdr_base_code/kernel/atdr_linux/atdr_main.c:224-245 | The FLIP moves the kernel to the other area and changes no mark |
| KernelBitmap.DeviceBitmap.constructor | atdr_base_code/kernel/atdr_linux/atdr_bitmap.c:61-80 | A new device starts at the base area as KERNEL with both areas empty |
| BitmapServer.BitmapServer.CopyWord | atdr_base_code/user/atdr_linux/atdr_bitmap_server.c:38-39 | One turn of the copy adds exactly the marks of that word of the area being marked |
| BitmapServer.BitmapServer.CopyMapped | atdr_base_code/user/atdr_linux/atdr_bitmap_server.c:35-41 | Whatever writes come in between two words, the copy holds every mark made before it began, and only marks |
| BitmapServer.BitmapServer.ClearMapped | atdr_base_code/user/atdr_linux/atdr_bitmap_server.c:43-50 | One area of the mapping becomes zero and the rest keeps its contents |
| BitmapServer.BitmapServer.LoadFromMemory | atdr_base_code/user/atdr_linux/atdr_bitmap_server.c:70-116 | With writes coming in during the copy: the server's copy lies between the marks at its start and those of the area then handed out, and server and kernel agree on the user |
| BitmapServer.BitmapServer.GetBitmap | atdr_base_code/user/atdr_linux/replic_server.c:49-82 | A metadata request answers with every mark made since the last FLIP, freezes the area, and opens the round |
| BitmapServer.BitmapServer.Destroy | atdr_base_code/user/atdr_linux/atdr_bitmap_server.c:220-234 | When server and kernel agree, the area cleared is the resting one and the marks being made survive |
| BitmapServer.BitmapServer.Terminate | atdr_base_code/user/atdr_linux/replic_server.c:275-297 | The first termination of a round clears the handed-out area, a repeated one changes nothing |
| ResyncThread.ResyncThread.CopyChunk | atdr_base_code/user/atdr_linux/atdr_io_engine_client.c:45-72 | Reading and writing one chunk is one step of the step system, also where the device ends inside the buffer |
| ResyncThread.ResyncThread.ReplicationTerminate | atdr_base_code/user/atdr_linux/atdr_resync.c:33-66 | Termination completes the round and resets the position, unless a pause has come since the loop's last test |
| ResyncThread.ResyncThread.RestartResync | atdr_base_code/user/atdr_linux/atdr_resync.c:68-198 | The nested loops end exactly as the pauses and errors met at the n-th look determine, a look coming before each test for a pause and at each transfer; their effect is a run of the step system, an outage or a pause is marked only if it was met, a completed round's position is reset unless a pause came after the last test, and if nothing interferes the run is the uninterrupted one |
| ThreadLife.OneEnd | atdr_base_code/user/atdr_linux/atdr_resync.c:68-198 | What a thread meets at its looks determines the state it ends in |
| ThreadLife.PauseStops | atdr_base_code/user/atdr_linux/atdr_resync.c:180-187 | Whatever came before: a pause met at or above the test below the loop, at a position above 0, ends the thread with the round paused and not completed and no further sector copied; a grain it stood in counts as passed |
| ThreadLife.PauseTooLate | atdr_base_code/user/atdr_linux/atdr_resync.c:33-66 | A pause met below that test leaves the round completed with its position kept |
| ThreadLife.PauseIgnored | atdr_base_code/user/atdr_linux/atdr_daemon.c:635-650 | A pause that comes at position 0 changes nothing |
| ThreadLife.ErrorStops | atdr_base_code/user/atdr_linux/atdr_resync.c:133-171 | Whatever came before: an error at a transfer ends the thread with the outage that error stands for, link or disk; nothing more is copied and positions and table stay |
| ThreadLife.OnlyBySignal | atdr_base_code/user/atdr_linux/atdr_resync.c:103-187 | An outage is marked only if its error was met, a round is paused only if the command was met, and no thread ends without completing the round or having met one of them |
| ThreadLife.ErrorAtChunk | atdr_base_code/user/atdr_linux/atdr_resync.c:133-171 | From the signals alone: if the first is an error at chunk k of dirty grain b, found by counting looks from the start, exactly the chunks before it are copied, the outage is the error's and the position is the grain before |
| ThreadLife.PauseAtChunk | atdr_base_code/user/atdr_linux/atdr_resync.c:108-177 | If it is a pause there, exactly the chunks before it are copied, the round is paused, and the position is that grain |
| ThreadLife.PauseAtHead | atdr_base_code/user/atdr_linux/atdr_resync.c:103-104 | If it is a pause at the loop's test before grain b, exactly the dirty grains below are copied, the round is paused, and the position is the grain before |
| ThreadLife.PauseBelowLoop | atdr_base_code/user/atdr_linux/atdr_resync.c:180-187 | If it is a pause at the test below the loop, everything is copied and the round is paused, not completed |
| ThreadLife.PauseAtEnd | atdr_base_code/user/atdr_linux/atdr_resync.c:33-66 | If it is a pause below that test, everything is copied, and the round is completed with the last bit as its position |
| ResyncThread.ResyncThread.Restart | atdr_base_code/user/atdr_linux/atdr_recovery.c:68-139 | Recovery starts a thread at the saved position: the step system's Recover, keeping the round invariant |
| ResyncThread.ResyncThread.ResumeRound | atdr_base_code/user/atdr_linux/atdr_daemon.c:673-677 | The resume command, once the old thread is gone, is the step system's AskResume and keeps the round invariant |
| ResyncThread.ResyncThread.ResyncRound | atdr_base_code/user/atdr_linux/atdr_daemon.c:622-685 | Started by command 'r' and restarted after whatever stops it, a round ends with exactly its dirty grains copied; each of its threads ends as what it met determines, starts where recovery or the resume command puts it, and the position is reset unless a pause came at the very end |
| ReplicationRound.RunRound | atdr_base_code/user/atdr_linux/replic_server.c:49-297 | Metadata request, interrupted resync and termination through the code of both sides, with writes coming in during the copy and others before the termination: if the differences were marked, the target becomes the snapshot, the handed-out area ends empty and the later marks stay |
| BitmapViews.ClientReadsKernelBits | atdr_base_code/user/atdr_linux/atdr_bitmap_server.c:201-218 | The bit the kernel sets through a 64-bit word is the bit the client reads through a 32-bit word, and is the little-endian bit of the bytes |
| BitmapViews.CheckIsMirrored | atdr_base_code/user/atdr_linux/atdr_bitmap_server.c:169-195 | The server's bit test, page by page and from the top of each byte, reads the bit mirrored within its byte |
| BitmapViews.SameNumberOfMarks | atdr_base_code/user/atdr_linux/atdr_bitmap_server.c:19-33 | The mirrored numbering has as many marks as the bitmap |
| BitmapViews.GetTotalBitsSet | atdr_base_code/user/atdr_linux/atdr_bitmap_server.c:19-33 | The counting loop returns the number of marked grains, although it numbers bits differently from the code that marks them |
| BitmapViews.KernelMarks | atdr_base_code/kernel/atdr_linux/atdr_bitmap.c:118-129 | The grains the kernel marked in its words are the marked grains of the bytes, and the ones the client's test finds |
| BitmapViews.FileIsWrittenIff | atdr_base_code/user/atdr_linux/atdr_daemon.c:146-152 | The client's condition for writing the bitmap file is that the first 64-bit word of the bitmap is nonzero |
| Handshake.Header.StartProtocolNegotiation | atdr_base_code/user/atdr_linux/atdr_daemon.c:86-107 | Whatever sizes the client proposes, after SYN and SYN_ACK it holds the server's |
| Handshake.Header.SynReceived | atdr_base_code/user/atdr_linux/replic_server.c:217-232 | The reply carries the server's own sizes and the rest of the SYN unchanged |
| Handshake.NegotiateAndCopy | atdr_base_code/user/atdr_linux/replic_server.c:84-110 | After the handshake the client writes every chunk at the byte offset the server read it from, which on a device of at most 2^63 bytes is that of the chunk's first sector |
| Handshake.OffsetIsExact | atdr_base_code/user/atdr_linux/atdr_io_engine_client.c:45-60 | The 64-bit sector and byte arithmetic does not wrap on such a device, and successive chunks are one 4096-byte buffer apart |
| FindNextBit.GenericFindNextLeBit | atdr_base_code/kernel/atdr_linux/compat/bitops.h:36-77 | The result is the least set bit in little-endian order from the offset on and below the size, or the size if there is none |
| FindNextBit.Ffs | atdr_base_code/kernel/atdr_linux/compat/bitops.h:72-76 | The lowest set bit of a nonzero word |
| FindNextBit.SearchesMemoryOrder | atdr_base_code/kernel/atdr_linux/compat/bitops.h:13-34 | The order searched on a big-endian machine is the order of the bits in memory, which a little-endian machine reads off its words directly |
| FindNextBit.AllBits | atdr_base_code/kernel/atdr_linux/compat/bitops.h:36-77 | Repeated from one past each find, the search visits every set bit once and in order |
| Words.SwabInvolution | atdr_base_code/kernel/atdr_linux/compat/bitops.h:24-34 | The byte swap is its own inverse and keeps zero, and only zero, at zero |
| Words.SwabConvertsEndianness | atdr_base_code/kernel/atdr_linux/compat/bitops.h:13-34 | The byte swap turns the big-endian reading of eight bytes into the little-endian one |
| RadixTree.IdrGetNext | atdr_base_code/kernel/atdr_linux/compat/idr.c:14-47 | The loops with the ancestor stack compute the scan that steps over one missing subtree at a time, for every start; a pointer returned is the one the tree holds at the id returned; the value popped below the stack is never followed |
| RadixTree.LayerHasChildren | atdr_base_code/kernel/atdr_linux/compat/idr.c:31-34 | For q below 2^bits and r below the size of a child, a layer has at q * size + r what child q has at r |
| RadixTree.PresentIffHeld | atdr_base_code/kernel/atdr_linux/compat/idr.c:27-38 | The descent by shift and mask finds an entry at an id exactly where the tree, read as nested blocks of ids, holds it |
| RadixTree.Ascend | atdr_base_code/kernel/atdr_linux/compat/idr.c:40-44 | After the climb the stack is again the ancestor path of the new id; it is popped below its bottom at most once, only past the last id |
| RadixTree.FlsIff | atdr_base_code/kernel/atdr_linux/compat/idr.c:41 | The climb goes on exactly while the id has outgrown the height |
| RadixTree.IterationIsAligned | atdr_base_code/kernel/atdr_linux/compat/idr.c:27-45 | 0, and one past a present id, are aligned to any missing subtree they point into |
| RadixTree.AlignedStep | atdr_base_code/kernel/atdr_linux/compat/idr.c:40 | From an aligned id the step over a missing subtree skips no entry and is aligned again |
| RadixTree.ScanFindsLeast | atdr_base_code/kernel/atdr_linux/compat/idr.c:14-47 | From an aligned start the search finds the least present id at or above it, or none |
| RadixTree.SuccessorFromAnyStartIff | atdr_base_code/kernel/atdr_linux/compat/idr.c:40 | The search is right from every start if and only if no missing subtree has an entry less than its own size behind it |
| RadixTree.StartInsideAHole | atdr_base_code/kernel/atdr_linux/compat/idr.c:40 | A four-id tree in which the search from 1 misses the entry at 2 |
| RadixTree.VisitAll | atdr_base_code/kernel/atdr_linux/compat/idr.c:14-47 | The usual iteration visits exactly the ids the tree holds, once each and in order, with the pointer it holds there |

## Left out

- Sockets, threads, fifos, ioctl plumbing, mmap, MySQL, logging and the md5 child process: only success or
  failure of a transfer and the persisted position remain.
- `recv` returning 0 and short reads or writes, which the code takes for success; a read error of the source disk, after
  which the server closes the connection.
- While several threads run (Wire, Overlap, EarlyResume, Restart) no further command, failure or crash comes, until
  the server is told to terminate; the system model has one thread.
- A header that one thread sets while another sends it is sent as it stands before or after, not in between.
- A thread cancelled by another goes on to its next cancellation point; in Wire it ends at once.
- A resume between the sending of a termination and RESYNC_COMPLETED: by then the round is whole, and Overlap follows
  rounds up to the termination.
- A pause and a resume after a round that ended with a position left over: the code then starts a thread over a
  bitmap it has freed; in the model a resume needs a round that has not ended.
- A command that is interrupted half way: command 'n' tests the position, sets two states in memory and two
  in the database one after the other.
- The sockets a restarted daemon opens one after the other: each new one replaces the replies of the last.
- Recovery reopens the target with O_TRUNC under a name taken with an uninitialised index
  (`atdr_base_code/user/atdr_linux/atdr_recovery.c:93-94`); the target is taken to be the same block device.
- The branch of `server_bitmap_load_from_memory` that does not FLIP, for server recovery: it picks an area
  from its first word only.
- Changing the grain size in mid-run (`atdr_base_code/kernel/atdr_linux/atdr_main.c:181-200`).
- Devices larger than the bitmap covers: writes past it mark the last bit and are not copied.
- KernelBitmap.DeviceBitmap: the area size is a whole number of 64-bit words; locks are not modelled, each
  method is one atomic change.
- ResyncThread.ResyncThread.ResumeRound: requires that no thread is running, which the code does not test; Overlap
  says when that matters.
- ResyncThread.ResyncThread: the client's bitmap is a set of grains; `BitmapViews.KernelMarks` is what ties
  the set to the words its bit test reads.
- RadixTree.IdrGetNext: ids are unbounded; with layers * IDR_BITS at most 30 every value formed fits the
  code's int. Concurrent changes of the tree are not modelled.
- FindNextBit.Ffs: the kernel's `__ffs` is not in the repository and is modelled by its meaning.
- Partner, relation and disk slot tables, list commands, device setup, the snapshot tool and the admin
  command line: bookkeeping.
- The Windows and older common copies of the same code, lru_cache.h, the netlink headers and the compat
  tests.
