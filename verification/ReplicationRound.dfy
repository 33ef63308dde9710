/** One replication round through the imperative code on both sides: metadata request, resync with
    whatever interrupts it, termination. */
module ReplicationRound {
  import opened Geometry
  import opened ResyncSteps
  import opened Replication
  import Resume
  import KernelBitmap
  import BitmapServer
  import ResyncThread
  import ThreadLife

  /** Wherever the target lacks the snapshot, the grain is marked in the area the kernel is marking. */
  ghost predicate DifferencesMarked(geo: Geometry, k: Kernel, target: seq<Sector>, snap: seq<Sector>)
    requires geo.grain > 0 && |target| == |snap|
  {
    forall x: nat :: x < |target| && target[x] != snap[x] ==> geo.GrainOf(x) in Marking(k)
  }

  /** The client's part: the bitmap arrives, the round runs. */
  method Resync(client: ResyncThread.ResyncThread, marked: set<nat>, envs: seq<seq<ThreadLife.Signal>>)
    returns (late: bool)
    requires client.Valid() && client.thread == NotRunning && client.last == 0
    requires forall g :: g in marked ==> g < client.geo.bits
    requires forall x: nat :: x < client.geo.cap && client.target[x] != client.snapshot[x] ==>
      client.geo.GrainOf(x) in marked
    modifies client, client.target
    ensures client.target[..] == client.snapshot
    ensures client.rep == Completed && client.thread == NotRunning
    ensures client.last == if late then client.geo.bits - 1 else 0
  {
    client.LoadBitmap(marked);
    ghost var lives;
    late, lives := client.ResyncRound(envs);
  }

  /** The round makes the target the snapshot, whatever writes `marks` come in while the bitmap is copied,
      hands the kernel the other area with the marks it had, keeps those of the writes `meanwhile` that come
      before the termination, and leaves the handed-out area empty.  The client is fit for the next round unless a
      pause came at the very end. */
  method RunRound(server: BitmapServer.BitmapServer, client: ResyncThread.ResyncThread,
                  marks: seq<seq<(nat, nat)>>, meanwhile: seq<(nat, nat)>,
                  envs: seq<seq<ThreadLife.Signal>>)
    returns (late: bool)
    requires server.Valid() && client.Valid() && client.geo.bits == server.dev.words * 64
    requires client.thread == NotRunning && client.last == 0
    requires client.target as object != server.dev.mem
    requires DifferencesMarked(client.geo, server.dev.View(), client.target[..], client.snapshot)
    modifies server, server.dev, server.dev.mem, client, client.target
    ensures server.Valid() && client.target[..] == client.snapshot
    ensures client.thread == NotRunning && client.last == if late then client.geo.bits - 1 else 0
    ensures Marking(server.dev.View()) == old(Resting(server.dev.View())) + server.dev.Ranges(meanwhile)
    ensures Resting(server.dev.View()) == {}
  {
    hide KernelBitmap.At;
    var sent := server.GetBitmap(marks);
    var marked := KernelBitmap.MarkedIn(sent, 0, server.dev.words);
    late := Resync(client, marked, envs);
    server.dev.MarkAll(meanwhile);
    server.Terminate();
  }
}
