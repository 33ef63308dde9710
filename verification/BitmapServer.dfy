/** The server daemon's side of the bitmap (atdr_bitmap_server.c): it maps the kernel's memory, copies
    the area the kernel is marking, sends the FLIP, and later clears the area it copied. */
module BitmapServer {
  import opened Words
  import opened Replication
  import opened KernelBitmap

  class BitmapServer {
    const dev: DeviceBitmap      // the mapped device; dev.mem is shared with the kernel
    var area: array<bv64>        // bitmap_area, the server's own copy
    var user: BmapUser           // bmap_user
    var released: bool           // the partner object is PARTNER_OBJ_RELEASED

    ghost predicate Valid()
      reads this, dev
    {
      && dev.Valid()
      && area.Length == dev.words
      && area != dev.mem
    }

    /** The grains of the copied bitmap. */
    ghost function Sent(): set<nat>
      requires Valid()
      reads this, dev, area
    {
      MarkedIn(area[..], 0, dev.words)
    }

    constructor (dev_: DeviceBitmap)
      requires dev_.Valid()
      ensures Valid() && dev == dev_ && user == KERNEL && released && fresh(area) && Sent() == {}
    {
      dev := dev_;
      area := new bv64[dev_.words](_ => 0);
      user := KERNEL;
      released := true;
      new;
      MarkedZero(area[..], 0, dev.words);
    }

    /** `bitmap_server_create`: a new, empty copy. */
    method Create()
      requires Valid()
      modifies this`area, this`user
      ensures Valid() && fresh(area) && user == KERNEL && Sent() == {}
      ensures forall w :: 0 <= w < dev.words ==> area[w] == 0
    {
      area := new bv64[dev.words](_ => 0);
      user := KERNEL;
      MarkedZero(area[..], 0, dev.words);
    }

    /** One turn of `ebdr_copy_mmaped_bitmap`: the system's CopyWord step. */
    method CopyWord(w: nat)
      requires Valid() && w < dev.words && area[w] == 0
      requires user != dev.user
      modifies area
      ensures area[..] == old(area[..])[w := dev.mem[dev.area + w]]
      ensures Sent() == old(Sent()) + WordMarks(CopiedArea(dev.View(), user), w)
    {
      var src := if user == USER then 0 else dev.words;
      ghost var was := area[..];
      area[w] := dev.mem[src + w];
      WordCopied(was, area[..], dev.mem[..], src, dev.words, w);
    }

    /** `ebdr_copy_mmaped_bitmap`, beside a kernel that goes on marking: before the n-th word is copied the
        writes marks[n] come in.  Every mark made before the copy is copied, and only marks are. */
    method CopyMapped(marks: seq<seq<(nat, nat)>>)
      requires Valid() && user != dev.user
      requires forall w :: 0 <= w < dev.words ==> area[w] == 0
      modifies area, dev.mem
      ensures Grown(old(dev.View()), dev.View())
      ensures old(Marking(dev.View())) <= Sent() <= Marking(dev.View())
    {
      MarkedZero(area[..], 0, dev.words);
      ghost var k0 := dev.View();
      var w := 0;
      while w < dev.words
        invariant w <= dev.words && Valid()
        invariant Grown(k0, dev.View())
        invariant forall i :: w <= i < dev.words ==> area[i] == 0
        invariant forall g :: g in Marking(k0) && g / 64 < w ==> g in Sent()
        invariant Sent() <= Marking(dev.View())
      {
        label BeforeWord:
        dev.MarkAll(if w < |marks| then marks[w] else []);
        assert area[..] == old@BeforeWord(area[..]);
        CopyWord(w);
        w := w + 1;
      }
      ghost var bits := dev.words * 64;
      forall g | g in Marking(k0)
        ensures g / 64 < dev.words
      {
        WordOfBit(dev.words, g);
      }
    }

    /** `ebdr_clear_active_bitmap` from word `dest` of the mapping. */
    method ClearMapped(dest: nat)
      requires Valid() && dest + dev.words <= dev.mem.Length
      modifies dev.mem
      ensures forall w: nat :: w < dev.mem.Length ==>
        dev.mem[w] == if dest <= w < dest + dev.words then 0 else old(dev.mem[w])
    {
      var i := 1;
      while i <= dev.words
        invariant 1 <= i <= dev.words + 1
        invariant forall w: nat :: w < dev.mem.Length ==>
          dev.mem[w] == if dest <= w < dest + i - 1 then 0 else old(dev.mem[w])
      {
        dev.mem[dest + i - 1] := 0;
        i := i + 1;
      }
    }

    /** `server_bitmap_load_from_memory`, the branch that flips: GET_USER, the copy beside the kernel's
        marking, the FLIP. */
    method LoadFromMemory(marks: seq<seq<(nat, nat)>>)
      requires Valid() && forall w :: 0 <= w < dev.words ==> area[w] == 0
      modifies this`user, area, dev, dev.mem
      ensures Valid() && user == NotedUser(old(dev.View())) == dev.user
      ensures old(Marking(dev.View())) <= Sent() <= Resting(dev.View())
      ensures Marking(dev.View()) == old(Resting(dev.View()))
    {
      var u := dev.GetUser();
      user := if u == KERNEL then USER else KERNEL;
      CopyMapped(marks);
      dev.Flip();
    }

    /** `get_bitmap`: a metadata request opens a round and answers with the copy. */
    method GetBitmap(marks: seq<seq<(nat, nat)>>) returns (sent: seq<bv64>)
      requires Valid()
      modifies this, dev, dev.mem
      ensures Valid() && !released && fresh(area)
      ensures sent == area[..] && user == NotedUser(old(dev.View())) == dev.user
      ensures old(Marking(dev.View())) <= Sent() <= Resting(dev.View())
      ensures Marking(dev.View()) == old(Resting(dev.View()))
    {
      released := false;
      Create();
      LoadFromMemory(marks);
      sent := area[..];
    }

    /** `terminate`: the first termination of a round clears the handed-out area, later ones do nothing
        (the system's ServerTerminate). */
    method Terminate()
      requires Valid()
      modifies this`released, dev.mem
      ensures Valid() && released
      ensures dev.View() == if old(released) then old(dev.View()) else ClearHandedOut(old(dev.View()), user)
    {
      if !released {
        Destroy();
        released := true;
      }
    }

    /** `bitmap_server_destroy`: clears the area this server believes it handed out. */
    method Destroy()
      requires Valid()
      modifies dev.mem
      ensures dev.View() == ClearHandedOut(old(dev.View()), user)
      ensures user == dev.user ==> Marking(dev.View()) == old(Marking(dev.View())) && Resting(dev.View()) == {}
    {
      ghost var was := dev.mem[..];
      if user == USER {
        ClearMapped(0);
        MarkedZero(dev.mem[..], 0, dev.words);
        MarkedSame(was, dev.mem[..], dev.words, dev.words);
      } else {
        ClearMapped(dev.words);
        MarkedZero(dev.mem[..], dev.words, dev.words);
        MarkedSame(was, dev.mem[..], 0, dev.words);
      }
    }
  }

  /** Copying a word adds its marks. */
  lemma WordCopied(was: seq<bv64>, now: seq<bv64>, m: seq<bv64>, base: nat, words: nat, w: nat)
    requires |was| == words && base + words <= |m| && w < words
    requires was[w] == 0 && now == was[w := m[base + w]]
    ensures MarkedIn(now, 0, words) == MarkedIn(was, 0, words) + WordMarks(MarkedIn(m, base, words), w)
  {
    forall i: nat | i < words * 64
      ensures At(now, 0, i) <==> At(was, 0, i) || (i / 64 == w && At(m, base, i))
    {
      WordOfBit(words, i);
      Constants(i % 64);
      hide Bit;
    }
    hide At;
  }
}
