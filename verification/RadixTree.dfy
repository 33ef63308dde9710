/** `idr_get_next`: successor search in the kernel's id radix tree, with an explicit stack of ancestors.

    A layer holds 2^bits pointers; a tree of height n (in bits) covers the ids below 2^n.  IDR_BITS is a
    header constant of the kernel, here the parameter `bits`. */
module RadixTree {
  import Geometry
  import opened Options

  datatype Tree =
    | Null
    | Entry(ptr: int)
    | Layer(ary: seq<Tree>)

  function Pow2(n: nat): (p: nat)
    ensures p > 0
  {
    if n == 0 then 1 else 2 * Pow2(n - 1)
  }

  /** `fls`: one past the number of the highest set bit. */
  function Fls(x: nat): nat {
    if x == 0 then 0 else 1 + Fls(x / 2)
  }

  /** A tree of height n: layers all the way down, entries at height 0. */
  ghost predicate Formed(t: Tree, bits: nat, n: nat) {
    match t
    case Null => true
    case Entry(_) => n == 0
    case Layer(ary) =>
      && 0 < bits <= n && |ary| == Pow2(bits)
      && forall i :: 0 <= i < |ary| ==> Formed(ary[i], bits, n - bits)
  }

  /** `(id >> n) & IDR_MASK` */
  function Slot(bits: nat, n: nat, id: nat): (i: nat)
    ensures i < Pow2(bits)
  {
    id / Pow2(n) % Pow2(bits)
  }

  /** Height at which the descent towards `id` ends: 0, or that of the missing subtree. */
  function Stop(t: Tree, bits: nat, n: nat, id: nat): (m: nat)
    requires Formed(t, bits, n)
    ensures m <= n
    decreases t
  {
    if t.Layer? then Stop(t.ary[Slot(bits, n - bits, id)], bits, n - bits, id) else n
  }

  /** What it finds there. */
  function End(t: Tree, bits: nat, n: nat, id: nat): (e: Tree)
    requires Formed(t, bits, n)
    ensures !e.Layer?
    decreases t
  {
    if t.Layer? then End(t.ary[Slot(bits, n - bits, id)], bits, n - bits, id) else t
  }

  ghost predicate Present(t: Tree, bits: nat, n: nat, id: nat)
    requires Formed(t, bits, n)
  {
    id < Pow2(n) && End(t, bits, n, id).Entry?
  }

  // ---------------------------------------------------------------- powers and blocks

  lemma PowSum(a: nat, b: nat)
    ensures Pow2(a + b) == Pow2(a) * Pow2(b)
  {
    if a > 0 {
      PowSum(a - 1, b);
    }
  }

  lemma PowMono(a: nat, b: nat)
    requires a <= b
    ensures Pow2(a) <= Pow2(b)
    ensures a < b ==> 2 * Pow2(a) <= Pow2(b)
  {
    if a < b {
      PowMono(a, b - 1);
    }
  }

  /** `n < fls(id)` asks whether id has outgrown height n. */
  lemma {:induction false} FlsIff(n: nat, id: nat)
    ensures n < Fls(id) <==> Pow2(n) <= id
  {
    if n > 0 && id > 0 {
      FlsIff(n - 1, id / 2);
    }
  }

  lemma DivDiv(x: nat, a: nat, b: nat)
    requires a > 0 && b > 0
    ensures a * b > 0 && x / a / b == x / (a * b)
  {
    Geometry.MulMono(1, a, b);
    var q := x / a / b;
    Geometry.DivIsInterval(x / a, b, q);
    Geometry.DivIsInterval(x, a, x / a);
    Geometry.MulMono(q * b, x / a, a);
    Geometry.MulMono(x / a + 1, (q + 1) * b, a);
    assert q * b * a == q * (a * b) && (q + 1) * b * a == (q + 1) * (a * b);
    Geometry.DivIsInterval(x, a * b, q);
  }

  /** Ids in one block of size 2^m are in one block of any larger size. */
  lemma SameBlock(i: nat, j: nat, m: nat, n: nat)
    requires m <= n && i / Pow2(m) == j / Pow2(m)
    ensures i / Pow2(n) == j / Pow2(n)
  {
    PowSum(m, n - m);
    DivDiv(i, Pow2(m), Pow2(n - m));
    DivDiv(j, Pow2(m), Pow2(n - m));
  }

  /** The descents towards two ids of the block where one of them ends are the same. */
  lemma {:induction false} SharedDescent(t: Tree, bits: nat, n: nat, i: nat, j: nat)
    requires Formed(t, bits, n)
    requires var m := Stop(t, bits, n, i); i / Pow2(m) == j / Pow2(m)
    ensures Stop(t, bits, n, j) == Stop(t, bits, n, i)
    ensures End(t, bits, n, j) == End(t, bits, n, i)
    decreases t
  {
    if t.Layer? {
      SameBlock(i, j, Stop(t, bits, n, i), n - bits);
      SharedDescent(t.ary[Slot(bits, n - bits, i)], bits, n - bits, i, j);
    }
  }

  lemma {:induction false} EntriesAtTheBottom(t: Tree, bits: nat, n: nat, id: nat)
    requires Formed(t, bits, n) && End(t, bits, n, id).Entry?
    ensures Stop(t, bits, n, id) == 0
    decreases t
  {
    if t.Layer? {
      EntriesAtTheBottom(t.ary[Slot(bits, n - bits, id)], bits, n - bits, id);
    }
  }

  // ---------------------------------------------------------------- which entry an id has

  /** The tree maps `id` to this pointer: the children of a layer of height n hold the ids in order, 2^(n - bits)
      each. */
  ghost predicate Holds(t: Tree, bits: nat, n: nat, id: nat, ptr: int)
    requires Formed(t, bits, n)
    decreases t
  {
    match t
    case Null => false
    case Entry(p) => id == 0 && p == ptr
    case Layer(ary) =>
      var m: nat := n - bits;
      exists q: nat, r: nat :: q < |ary| && IsJoined(id, q, m, r) && Holds(ary[q], bits, m, r, ptr)
  }

  ghost predicate IsJoined(id: nat, q: nat, m: nat, r: nat) {
    r < Pow2(m) && id == q * Pow2(m) + r
  }

  lemma Joined(id: nat, m: nat) returns (q: nat, r: nat)
    ensures IsJoined(id, q, m, r)
  {
    q, r := Split(id, Pow2(m));
  }

  lemma Split(id: nat, s: nat) returns (q: nat, r: nat)
    requires s > 0
    ensures r < s && id == q * s + r
  {
    q, r := id / s, id % s;
  }

  lemma JoinedOnce(id: nat, m: nat, q: nat, r: nat, q': nat, r': nat)
    requires IsJoined(id, q, m, r) && IsJoined(id, q', m, r')
    ensures q == q' && r == r'
  {
    ModLow(q, r, Pow2(m));
    ModLow(q', r', Pow2(m));
  }

  lemma ModLow(a: nat, b: nat, s: nat)
    requires s > 0 && b < s
    ensures (a * s + b) % s == b && (a * s + b) / s == a
  {
    Geometry.DivIsInterval(a * s + b, s, a);
  }

  /** The slot of an id is the child it belongs to. */
  lemma {:induction false} SlotIsChild(bits: nat, m: nat, high: nat, q: nat, r: nat)
    requires q < Pow2(bits) && r < Pow2(m)
    ensures Slot(bits, m, (high * Pow2(bits) + q) * Pow2(m) + r) == q
  {
    ModLow(high * Pow2(bits) + q, r, Pow2(m));
    ModLow(high, q, Pow2(bits));
  }

  /** A subtree is searched by the low part of the id. */
  lemma {:induction false} EndIsLow(t: Tree, bits: nat, n: nat, high: nat, id: nat)
    requires Formed(t, bits, n) && id < Pow2(n)
    ensures End(t, bits, n, high * Pow2(n) + id) == End(t, bits, n, id)
    decreases t
  {
    if t.Layer? {
      var m := n - bits;
      var q, r := Joined(id, m);
      ChildInRange(bits, m, q, r);
      HighPart(bits, m, high, q, r);
      SlotIsChild(bits, m, high, q, r);
      SlotIsChild(bits, m, 0, q, r);
      EndIsLow(t.ary[q], bits, m, high * Pow2(bits) + q, r);
      EndIsLow(t.ary[q], bits, m, q, r);
    }
  }

  lemma HighPart(bits: nat, m: nat, high: nat, q: nat, r: nat)
    ensures high * Pow2(bits + m) + (q * Pow2(m) + r) == (high * Pow2(bits) + q) * Pow2(m) + r
  {
    PowSum(bits, m);
    var a, b := Pow2(bits), Pow2(m);
    assert high * (a * b) == high * a * b;
    assert (high * a + q) * b == high * a * b + q * b;
  }

  lemma ChildInRange(bits: nat, m: nat, q: nat, r: nat)
    requires r < Pow2(m)
    ensures q * Pow2(m) + r < Pow2(bits + m) <==> q < Pow2(bits)
  {
    PowSum(bits, m);
    if q < Pow2(bits) {
      Geometry.MulMono(q + 1, Pow2(bits), Pow2(m));
    } else {
      Geometry.MulMono(Pow2(bits), q, Pow2(m));
    }
  }

  /** What a layer has at an id is what its child has at the rest of it. */
  lemma {:induction false} LayerHasChildren(t: Tree, bits: nat, n: nat, q: nat, r: nat)
    requires Formed(t, bits, n) && t.Layer? && q < |t.ary| && r < Pow2(n - bits)
    ensures End(t, bits, n, q * Pow2(n - bits) + r) == End(t.ary[q], bits, n - bits, r)
    ensures Present(t, bits, n, q * Pow2(n - bits) + r) <==> Present(t.ary[q], bits, n - bits, r)
  {
    var m := n - bits;
    SlotIsChild(bits, m, 0, q, r);
    EndIsLow(t.ary[q], bits, m, q, r);
    ModLow(q, r, Pow2(m));
    ChildInRange(bits, m, q, r);
  }

  /** The descent finds an entry exactly where the tree holds one. */
  lemma {:induction false} PresentIffHeld(t: Tree, bits: nat, n: nat, id: nat, ptr: int)
    requires Formed(t, bits, n)
    ensures Present(t, bits, n, id) && End(t, bits, n, id) == Entry(ptr) <==> Holds(t, bits, n, id, ptr)
    decreases t
  {
    if t.Layer? {
      var m: nat := n - bits;
      var q, r := Joined(id, m);
      ChildInRange(bits, m, q, r);
      if q < |t.ary| {
        LayerHasChildren(t, bits, n, q, r);
        PresentIffHeld(t.ary[q], bits, m, r, ptr);
      }
      forall q': nat, r': nat | q' < |t.ary| && IsJoined(id, q', m, r')
        ensures q' == q && r' == r
      {
        JoinedOnce(id, m, q, r, q', r');
      }
      hide IsJoined, Slot, End;
    }
  }

  lemma HeldIsPresent(t: Tree, bits: nat, n: nat)
    requires Formed(t, bits, n)
    ensures forall i: nat, ptr: int :: Holds(t, bits, n, i, ptr) <==> Present(t, bits, n, i) && End(t, bits, n, i) == Entry(ptr)
  {
    forall i: nat, ptr: int
      ensures Holds(t, bits, n, i, ptr) <==> Present(t, bits, n, i) && End(t, bits, n, i) == Entry(ptr)
    {
      PresentIffHeld(t, bits, n, i, ptr);
    }
  }

  // ---------------------------------------------------------------- what the search computes

  /** Try `id`; when its subtree is missing, go on one subtree size further. */
  ghost function Scan(t: Tree, bits: nat, n: nat, id: nat): (r: Option<nat>)
    requires Formed(t, bits, n)
    ensures r.Some? ==> id <= r.value && Present(t, bits, n, r.value)
    decreases Pow2(n) - id
  {
    if id >= Pow2(n) then None
    else if End(t, bits, n, id).Entry? then Some(id)
    else Scan(t, bits, n, id + Pow2(Stop(t, bits, n, id)))
  }

  /** `stack` holds the ancestors of the node `p`, of height m, on the way from the top to `id`. */
  ghost predicate OnPath(t: Tree, bits: nat, n: nat, stack: seq<Tree>, m: nat, p: Tree, id: nat)
    decreases |stack|
  {
    && Formed(p, bits, m)
    && if stack == [] then p == t && m == n
       else
         var q := stack[|stack| - 1];
         && q.Layer? && OnPath(t, bits, n, stack[..|stack| - 1], m + bits, q, id)
         && p == q.ary[Slot(bits, m, id)]
  }

  lemma PathFormed(t: Tree, bits: nat, n: nat, stack: seq<Tree>, m: nat, p: Tree, id: nat)
    requires OnPath(t, bits, n, stack, m, p, id)
    ensures Formed(t, bits, n) && m <= n
    ensures stack != [] ==> bits > 0 && m + bits <= n
    decreases |stack|
  {
    if stack != [] {
      PathFormed(t, bits, n, stack[..|stack| - 1], m + bits, stack[|stack| - 1], id);
    }
  }

  lemma Push(t: Tree, bits: nat, n: nat, stack: seq<Tree>, m: nat, p: Tree, id: nat)
    requires OnPath(t, bits, n, stack, m, p, id) && p.Layer?
    ensures OnPath(t, bits, n, stack + [p], m - bits, p.ary[Slot(bits, m - bits, id)], id)
  {
    assert (stack + [p])[..|stack|] == stack;
  }

  /** The descent passes through every node on the path. */
  lemma {:induction false} DescentOnPath(t: Tree, bits: nat, n: nat, stack: seq<Tree>, m: nat, p: Tree, id: nat)
    requires OnPath(t, bits, n, stack, m, p, id) && Formed(t, bits, n)
    ensures Stop(t, bits, n, id) == Stop(p, bits, m, id)
    ensures End(t, bits, n, id) == End(p, bits, m, id)
    decreases |stack|
  {
    if stack != [] {
      DescentOnPath(t, bits, n, stack[..|stack| - 1], m + bits, stack[|stack| - 1], id);
    }
  }

  lemma SmallQuotient(id: nat, m: nat, n: nat)
    requires m <= n && id < Pow2(m)
    ensures id / Pow2(n) == 0
  {
    PowMono(m, n);
    Geometry.DivIsInterval(id, Pow2(n), 0);
  }

  /** Ids that fit under height m have the same path down to height m. */
  lemma {:induction false} SmallIdsShareAncestors(t: Tree, bits: nat, n: nat, stack: seq<Tree>, m: nat, p: Tree,
                                                  i: nat, j: nat)
    requires OnPath(t, bits, n, stack, m, p, i) && i < Pow2(m) && j < Pow2(m)
    ensures OnPath(t, bits, n, stack, m, p, j)
    decreases |stack|
  {
    if stack != [] {
      PowMono(m, m + bits);
      SmallIdsShareAncestors(t, bits, n, stack[..|stack| - 1], m + bits, stack[|stack| - 1], i, j);
      SmallQuotient(i, m, m);
      SmallQuotient(j, m, m);
    }
  }

  /** The search.  `below` is whatever lies in memory under the bottom of the stack: the last ascent, once
      id has reached max, reads it into p and the loop ends before p is followed. */
  method IdrGetNext(top: Tree, bits: nat, layers: nat, nextid: nat, below: Tree) returns (ptr: Tree, nextid': nat)
    requires bits > 0 && Formed(top, bits, layers * bits)
    ensures match Scan(top, bits, layers * bits, nextid)
            case None => ptr == Null && nextid' == nextid
            case Some(i) => ptr == End(top, bits, layers * bits, i) && nextid' == i
    ensures ptr.Entry? ==> Holds(top, bits, layers * bits, nextid', ptr.ptr)
  {
    var id := nextid;
    nextid' := nextid;
    var n: nat := layers * bits;
    ghost var height: nat := n;
    hide Holds;
    var max := Pow2(n);
    var p := top;
    var pa: seq<Tree> := [];
    if p == Null {
      return Null, nextid;
    }
    while id < max
      invariant id < max ==> OnPath(top, bits, height, pa, n, p, id)
      invariant Scan(top, bits, height, id) == Scan(top, bits, height, nextid)
      decreases max - id
    {
      n, p, pa := Descend(top, bits, height, n, p, pa, id);
      if p != Null {
        PresentIffHeld(top, bits, height, id, p.ptr);
        return p, id;
      }
      PathFormed(top, bits, height, pa, n, p, id);
      id := id + Pow2(n);
      n, p, pa := Ascend(top, bits, height, n, p, pa, id, id - Pow2(n), below);
    }
    return Null, nextid;
  }

  /** The inner loop down. */
  method Descend(ghost top: Tree, bits: nat, ghost height: nat, n0: nat, p0: Tree, pa0: seq<Tree>, id: nat)
    returns (n: nat, p: Tree, pa: seq<Tree>)
    requires OnPath(top, bits, height, pa0, n0, p0, id) && Formed(top, bits, height)
    ensures OnPath(top, bits, height, pa, n, p, id)
    ensures n == Stop(top, bits, height, id) && p == End(top, bits, height, id)
  {
    n, p, pa := n0, p0, pa0;
    while n > 0 && p != Null
      invariant OnPath(top, bits, height, pa, n, p, id)
    {
      Push(top, bits, height, pa, n, p, id);
      n := n - bits;
      pa := pa + [p];
      p := p.ary[Slot(bits, n, id)];
    }
    DescentOnPath(top, bits, height, pa, n, p, id);
  }

  /** The inner loop up: to the lowest height that `id` fits under.  Popping below the stack happens at
      most once, and only when `id` is at or past max. */
  method Ascend(ghost top: Tree, bits: nat, ghost height: nat, n0: nat, p0: Tree, pa0: seq<Tree>, id: nat,
                ghost was: nat, below: Tree)
    returns (n: nat, p: Tree, pa: seq<Tree>)
    requires OnPath(top, bits, height, pa0, n0, p0, was) && bits > 0
    requires was < Pow2(height) && n0 <= height && id == was + Pow2(n0)
    ensures id < Pow2(height) ==> OnPath(top, bits, height, pa, n, p, id)
  {
    n, p, pa := n0, p0, pa0;
    PowMono(n0, height);
    PowMono(height + 1, height + bits);
    while n < Fls(id)
      invariant if n <= height then OnPath(top, bits, height, pa, n, p, was)
                else n == height + bits && id >= Pow2(height)
      decreases height + bits - n
    {
      FlsIff(n, id);
      if n > height {
        assert false;
      }
      PathFormed(top, bits, height, pa, n, p, was);
      n := n + bits;
      if pa != [] {
        p, pa := pa[|pa| - 1], pa[..|pa| - 1];
      } else {
        p := below;
      }
    }
    FlsIff(n, id);
    if id < Pow2(height) {
      SmallIdsShareAncestors(top, bits, height, pa, n, p, was, id);
    }
  }

  // ---------------------------------------------------------------- when that is the successor

  /** `r` is the least present id at or above `start`. */
  ghost predicate IsLeast(t: Tree, bits: nat, n: nat, start: nat, r: Option<nat>)
    requires Formed(t, bits, n)
  {
    match r
    case None => forall j: nat :: start <= j ==> !Present(t, bits, n, j)
    case Some(i) =>
      && start <= i && Present(t, bits, n, i)
      && forall j: nat :: start <= j < i ==> !Present(t, bits, n, j)
  }

  /** `id` is a multiple of the size of the missing subtree it points into. */
  ghost predicate Aligned(t: Tree, bits: nat, n: nat, id: nat)
    requires Formed(t, bits, n)
  {
    id % Pow2(Stop(t, bits, n, id)) == 0
  }

  lemma BlockOf(a: nat, j: nat, s: nat)
    requires s > 0 && a % s == 0 && a <= j < a + s
    ensures j / s == a / s
  {
    var q := a / s;
    assert a == q * s;
    Geometry.DivIsInterval(j, s, q);
  }

  lemma NewBlock(id: nat, s: nat)
    requires s > 0 && id > 0 && (id - 1) / s != id / s
    ensures id % s == 0
  {
    var q := id / s;
    if id % s > 0 {
      assert id == q * s + id % s;
      Geometry.DivIsInterval(id - 1, s, q);
    }
  }

  lemma NextBlock(a: nat, s: nat)
    requires s > 0 && a % s == 0
    ensures (a + s) % s == 0
  {
    assert a + s == (a / s + 1) * s;
    Geometry.DivIsInterval(a + s, s, a / s + 1);
  }

  /** An id that follows a present id, or the end of a missing subtree, is aligned. */
  lemma {:induction false} FollowerIsAligned(t: Tree, bits: nat, n: nat, id: nat)
    requires Formed(t, bits, n) && id > 0
    requires id % Pow2(Stop(t, bits, n, id - 1)) == 0
    ensures Aligned(t, bits, n, id)
  {
    var s := Pow2(Stop(t, bits, n, id));
    if (id - 1) / s == id / s {
      SharedDescent(t, bits, n, id, id - 1);
    } else {
      NewBlock(id, s);
    }
  }

  /** The starts an iteration uses: 0, and one past an id just found. */
  lemma {:induction false} IterationIsAligned(t: Tree, bits: nat, n: nat, id: nat)
    requires Formed(t, bits, n)
    requires id == 0 || Present(t, bits, n, id - 1)
    ensures Aligned(t, bits, n, id)
  {
    if id > 0 {
      EntriesAtTheBottom(t, bits, n, id - 1);
      FollowerIsAligned(t, bits, n, id);
    } else {
      Geometry.DivIsInterval(0, Pow2(Stop(t, bits, n, 0)), 0);
    }
  }

  /** The step over a missing subtree skips no entry, and is aligned again. */
  lemma {:induction false} AlignedStep(t: Tree, bits: nat, n: nat, id: nat)
    requires Formed(t, bits, n) && Aligned(t, bits, n, id) && !Present(t, bits, n, id)
    ensures var next := id + Pow2(Stop(t, bits, n, id));
            && (id < Pow2(n) ==> forall j: nat :: id <= j < next ==> !Present(t, bits, n, j))
            && Aligned(t, bits, n, next)
  {
    var s := Pow2(Stop(t, bits, n, id));
    forall j: nat | id <= j < id + s
      ensures Stop(t, bits, n, j) == Stop(t, bits, n, id) && End(t, bits, n, j) == End(t, bits, n, id)
    {
      BlockOf(id, j, s);
      SharedDescent(t, bits, n, id, j);
    }
    NextBlock(id, s);
    FollowerIsAligned(t, bits, n, id + s);
  }

  /** From an aligned start the search finds the least present id. */
  lemma {:induction false} ScanFindsLeast(t: Tree, bits: nat, n: nat, id: nat)
    requires Formed(t, bits, n) && Aligned(t, bits, n, id)
    ensures IsLeast(t, bits, n, id, Scan(t, bits, n, id))
    decreases Pow2(n) - id
  {
    if id < Pow2(n) && !Present(t, bits, n, id) {
      AlignedStep(t, bits, n, id);
      ScanFindsLeast(t, bits, n, id + Pow2(Stop(t, bits, n, id)));
    }
  }

  /** First id of i's block of size s. */
  function BlockStart(i: nat, s: nat): nat
    requires s > 0
  {
    i / s * s
  }

  lemma InBlock(i: nat, s: nat, j: nat)
    requires s > 0
    ensures BlockStart(i, s) <= i < BlockStart(i, s) + s
    ensures BlockStart(i, s) <= j < BlockStart(i, s) + s ==> j / s == i / s
  {
    Geometry.DivIsInterval(i, s, i / s);
    Geometry.DivIsInterval(j, s, i / s);
  }

  /** `q` is an id the search can step over: less than a subtree size past the end of a missing subtree. */
  ghost predicate Exposed(t: Tree, bits: nat, n: nat, i: nat, q: nat)
    requires Formed(t, bits, n)
  {
    i < Pow2(n) && !Present(t, bits, n, i) &&
    var s := Pow2(Stop(t, bits, n, i));
    BlockStart(i, s) + s <= q < BlockStart(i, s) + 2 * s - 1
  }

  /** No missing subtree has an entry right behind it. */
  ghost predicate NoEntryExposed(t: Tree, bits: nat, n: nat)
    requires Formed(t, bits, n)
  {
    forall i: nat, q: nat :: Exposed(t, bits, n, i, q) ==> !Present(t, bits, n, q)
  }

  lemma {:induction false} ScanIfNotExposed(t: Tree, bits: nat, n: nat, id: nat)
    requires Formed(t, bits, n) && NoEntryExposed(t, bits, n)
    ensures IsLeast(t, bits, n, id, Scan(t, bits, n, id))
    decreases Pow2(n) - id
  {
    hide BlockStart, Stop, End;
    if id < Pow2(n) && !Present(t, bits, n, id) {
      var s := Pow2(Stop(t, bits, n, id));
      ScanIfNotExposed(t, bits, n, id + s);
      forall j: nat | id <= j < id + s
        ensures !Present(t, bits, n, j)
      {
        InBlock(id, s, j);
        if j < BlockStart(id, s) + s {
          SharedDescent(t, bits, n, id, j);
        } else {
          assert Exposed(t, bits, n, id, j);
        }
      }
    }
  }

  /** An exposed entry is missed from some start. */
  lemma {:induction false} ExposedIsMissed(t: Tree, bits: nat, n: nat, i: nat, q: nat)
    requires Formed(t, bits, n) && Exposed(t, bits, n, i, q) && Present(t, bits, n, q)
    ensures var start := q + 1 - Pow2(Stop(t, bits, n, i));
            start >= 0 && !IsLeast(t, bits, n, start, Scan(t, bits, n, start))
  {
    hide BlockStart, Stop, End;
    var s := Pow2(Stop(t, bits, n, i));
    var start := q + 1 - s;
    InBlock(i, s, start);
    SharedDescent(t, bits, n, i, start);
    assert Scan(t, bits, n, start) == Scan(t, bits, n, start + s);
  }

  /** Started from any id at all, the search finds the successor exactly in those trees where no missing
      subtree has an entry right behind it. */
  lemma {:induction false} SuccessorFromAnyStartIff(t: Tree, bits: nat, n: nat)
    requires Formed(t, bits, n)
    ensures (forall id: nat :: IsLeast(t, bits, n, id, Scan(t, bits, n, id))) <==> NoEntryExposed(t, bits, n)
  {
    if NoEntryExposed(t, bits, n) {
      forall id: nat
        ensures IsLeast(t, bits, n, id, Scan(t, bits, n, id))
      {
        ScanIfNotExposed(t, bits, n, id);
      }
    } else {
      var i: nat, q: nat :| Exposed(t, bits, n, i, q) && Present(t, bits, n, q);
      ExposedIsMissed(t, bits, n, i, q);
    }
  }

  /** Such a tree: ids 0 and 1 missing in one piece, id 2 present.  From 1 the search finds nothing. */
  lemma {:induction false} StartInsideAHole()
    ensures var t := Layer([Null, Layer([Entry(7), Null])]);
            && Formed(t, 1, 2) && Present(t, 1, 2, 2)
            && Scan(t, 1, 2, 1) == None && !IsLeast(t, 1, 2, 1, None)
  {
    var low := Layer([Entry(7), Null]);
    var t := Layer([Null, low]);
    assert Pow2(1) == 2 && Pow2(2) == 4 && Pow2(0) == 1;
    assert Formed(low, 1, 1) && Formed(t, 1, 2);
    assert Slot(1, 1, 1) == 0 && Stop(t, 1, 2, 1) == 1;
    assert Slot(1, 1, 3) == 1 && Slot(1, 0, 3) == 1 && End(t, 1, 2, 3) == Null && Stop(t, 1, 2, 3) == 0;
    assert Slot(1, 1, 2) == 1 && Slot(1, 0, 2) == 0;
    assert End(low, 1, 1, 2) == Entry(7) && End(t, 1, 2, 2) == Entry(7) && Present(t, 1, 2, 2);
    assert Scan(t, 1, 2, 4) == None;
    assert Scan(t, 1, 2, 3) == None;
  }

  /** The usual iteration: from 0, and from one past each id found.  It visits every entry once, in
      order, with its pointer. */
  method VisitAll(top: Tree, bits: nat, layers: nat, below: Tree) returns (ids: seq<nat>, ptrs: seq<Tree>)
    requires bits > 0 && Formed(top, bits, layers * bits)
    ensures |ids| == |ptrs|
    ensures forall j, k :: 0 <= j < k < |ids| ==> ids[j] < ids[k]
    ensures forall k :: 0 <= k < |ids| ==> ptrs[k].Entry? && Holds(top, bits, layers * bits, ids[k], ptrs[k].ptr)
    ensures forall i: nat, ptr: int :: Holds(top, bits, layers * bits, i, ptr) ==> i in ids
  {
    hide Stop, End, Scan, Holds;
    ghost var n := layers * bits;
    ids, ptrs := [], [];
    var start := 0;
    IterationIsAligned(top, bits, n, 0);
    ScanFindsLeast(top, bits, n, 0);
    var ptr, id := IdrGetNext(top, bits, layers, start, below);
    while ptr != Null
      invariant |ids| == |ptrs|
      invariant forall j, k :: 0 <= j < k < |ids| ==> ids[j] < ids[k]
      invariant forall k :: 0 <= k < |ids| ==> ids[k] < start
      invariant forall i: nat :: i in ids <==> i < start && Present(top, bits, n, i)
      invariant forall k :: 0 <= k < |ids| ==> ptrs[k] == End(top, bits, n, ids[k])
      invariant IsLeast(top, bits, n, start, Scan(top, bits, n, start))
      invariant match Scan(top, bits, n, start)
                case None => ptr == Null
                case Some(i) => ptr == End(top, bits, n, i) && id == i
      decreases Pow2(n) - start
    {
      ids := ids + [id];
      ptrs := ptrs + [ptr];
      start := id + 1;
      IterationIsAligned(top, bits, n, start);
      ScanFindsLeast(top, bits, n, start);
      ptr, id := IdrGetNext(top, bits, layers, start, below);
    }
    HeldIsPresent(top, bits, n);
    assert forall k :: 0 <= k < |ids| ==> ids[k] in ids && Present(top, bits, n, ids[k]);
  }
}
