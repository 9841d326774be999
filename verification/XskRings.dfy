/**
 The fill ring and the receive ring that user code shares with the kernel.

 Both are arrays indexed by free-running 32-bit counters.  The state machine
 below interleaves the kernel with the single memory operations of a release:
 one fill slot written, the fill producer published, the receive consumer
 published.  It is defined once for both kinds of counters: `Wrapped`, which is
 what the code does, with 32-bit sums and masked slots, and `Unbounded`, in
 which the rings are easy to reason about.  `StepsAgree` shows that the two
 machines are the same machine.
 */
module XskRings {
  import opened Words

  // A frame handed over by the kernel: byte address in the shared area, length.
  datatype Desc = Desc(addr: nat, len: nat)

  // How far user code is in releasing frames.
  datatype User = Idle | Copying(count: nat, done: nat) | Published(count: nat)

  datatype State = State(
    order: nat,
    frameSize: nat,
    fill: seq<nat>,
    fillProd: nat,
    fillCons: nat,
    fillCached: nat,
    rx: seq<Desc>,
    rxProd: nat,
    rxCons: nat,
    rxCached: nat,
    held: multiset<nat>,
    user: User)
  {
    // Entries in each ring; also the number of frames.
    function Size(): (n: nat)
      ensures n > 0
    {
      Pow2(order)
    }

    function Chunk(addr: nat): nat {
      ChunkOf(frameSize, addr)
    }
  }

  // The kernel identifies a frame by the chunk its address lies in.
  function ChunkOf(frameSize: nat, addr: nat): nat {
    if frameSize == 0 then 0 else addr / frameSize
  }

  datatype Counters = Wrapped | Unbounded

  function Slot(w: Counters, order: nat, x: nat): nat {
    if w.Wrapped? then And(x, Pow2(order) - 1) else x % Pow2(order)
  }

  function Add(w: Counters, x: nat, d: nat): nat {
    if w.Wrapped? then (x + d) % U32 else x + d
  }

  function Distance(w: Counters, p: nat, c: nat): nat {
    if w.Wrapped? then (p - c) % U32 else if p >= c then p - c else 0
  }

  datatype Action =
    | KernelTake
    | KernelPush(addr: nat, len: nat)
    | BeginRelease(count: nat)
    | CopyOne
    | PublishFill
    | PublishRx

  // What the peek returns when its batch limit does not bind.
  function Available(w: Counters, s: State): nat {
    Distance(w, s.rxProd, s.rxCached)
  }

  predicate Enabled(w: Counters, s: State, a: Action) {
    match a
    case KernelTake =>
      && Distance(w, s.fillProd, s.fillCons) > 0
      && Slot(w, s.order, s.fillCons) < |s.fill|
    case KernelPush(addr, len) =>
      && s.Chunk(addr) in s.held
      && Distance(w, s.rxProd, s.rxCons) < s.Size()
      && Slot(w, s.order, s.rxProd) < |s.rx|
    case BeginRelease(count) =>
      s.user == Idle && count <= Available(w, s)
    case CopyOne =>
      && s.user.Copying? && s.user.done < s.user.count
      && Slot(w, s.order, Add(w, s.rxCached, s.user.done)) < |s.rx|
      && Slot(w, s.order, Add(w, s.fillCached, s.user.done)) < |s.fill|
    case PublishFill =>
      s.user.Copying? && s.user.done == s.user.count
    case PublishRx =>
      s.user.Published?
  }

  function Next(w: Counters, s: State, a: Action): State
    requires Enabled(w, s, a)
  {
    match a
    case KernelTake =>
      s.(held := s.held + multiset{s.Chunk(s.fill[Slot(w, s.order, s.fillCons)])},
         fillCons := Add(w, s.fillCons, 1))
    case KernelPush(addr, len) =>
      s.(held := s.held - multiset{s.Chunk(addr)},
         rx := s.rx[Slot(w, s.order, s.rxProd) := Desc(addr, len)],
         rxProd := Add(w, s.rxProd, 1))
    case BeginRelease(count) =>
      s.(user := Copying(count, 0))
    case CopyOne =>
      var from := Slot(w, s.order, Add(w, s.rxCached, s.user.done));
      var to := Slot(w, s.order, Add(w, s.fillCached, s.user.done));
      s.(fill := s.fill[to := s.rx[from].addr],
         user := Copying(s.user.count, s.user.done + 1))
    case PublishFill =>
      var prod := Add(w, s.fillCached, s.user.count);
      s.(fillProd := prod, fillCached := prod, user := Published(s.user.count))
    case PublishRx =>
      var cons := Add(w, s.rxCached, s.user.count);
      s.(rxCons := cons, rxCached := cons, user := Idle)
  }

  // The rings as they are before the socket is bound: every frame in the fill
  // ring, the receive ring empty.
  function Created(order: nat, frameSize: nat, rx: seq<Desc>): State {
    var n := Pow2(order);
    State(order, frameSize, seq(n, i requires 0 <= i < n => i * frameSize), n, 0, n, rx, 0, 0, 0, multiset{}, Idle)
  }

  // ---- Who owns which frame -------------------------------------------------

  // Chunks of the addresses in the slots of the counters lo, ..., hi - 1.
  ghost function Chunks(frameSize: nat, addrs: seq<nat>, lo: nat, hi: nat): multiset<nat>
    requires |addrs| > 0
    decreases hi - lo
  {
    if hi <= lo then multiset{}
    else Chunks(frameSize, addrs, lo, hi - 1) + multiset{ChunkOf(frameSize, addrs[(hi - 1) % |addrs|])}
  }

  function Addrs(rx: seq<Desc>): (r: seq<nat>)
    ensures |r| == |rx|
  {
    seq(|rx|, i requires 0 <= i < |rx| => rx[i].addr)
  }

  // The first receive entry that user code has not given back.  A release gives
  // its entries back when it publishes the fill ring, before the kernel can see
  // that the receive ring has room.
  function FirstKept(s: State): nat {
    s.rxCons + if s.user.Published? then s.user.count else 0
  }

  ghost function AllFrames(n: nat): multiset<nat> {
    if n == 0 then multiset{} else AllFrames(n - 1) + multiset{n - 1}
  }

  predicate Shaped(s: State) {
    && s.order <= 31
    && s.frameSize > 0
    && |s.fill| == |s.rx| == s.Size()
    && s.fillCons <= s.fillProd == s.fillCached
    && s.rxCons == s.rxCached
    && s.rxCons <= FirstKept(s) <= s.rxProd
    && s.rxProd - s.rxCons <= s.Size()
  }

  predicate Releasing(s: State)
    requires Shaped(s)
  {
    s.user.Copying? ==>
      && s.user.done <= s.user.count <= s.rxProd - s.rxCons
      && forall j: nat :: j < s.user.done ==> Copied(s, j)
  }

  // Entry j of the release stands in its fill slot.
  predicate Copied(s: State, j: nat)
    requires Shaped(s)
  {
    SameAt(s.fill, Addrs(s.rx), s.fillProd, s.rxCons, j)
  }

  // Counters lo + j and to + j stand for the same address in their arrays.
  predicate SameAt(a: seq<nat>, b: seq<nat>, lo: nat, to: nat, j: nat)
    requires |a| > 0 && |b| > 0
  {
    a[(lo + j) % |a|] == b[(to + j) % |b|]
  }

  ghost function InFill(s: State): multiset<nat>
    requires Shaped(s)
  {
    Chunks(s.frameSize, s.fill, s.fillCons, s.fillProd)
  }

  ghost function InRx(s: State): multiset<nat>
    requires Shaped(s)
  {
    Chunks(s.frameSize, Addrs(s.rx), FirstKept(s), s.rxProd)
  }

  // Every frame in exactly one place: the fill ring, the kernel, or the receive
  // entries not given back.
  ghost predicate Conserved(s: State)
    requires Shaped(s)
  {
    InFill(s) + s.held + InRx(s) == AllFrames(s.Size())
  }

  ghost predicate Inv(s: State) {
    Shaped(s) && Releasing(s) && Conserved(s)
  }

  // ---- Lemmas about counters, slots and chunks ------------------------------

  lemma DistinctSlots(n: nat, i: nat, j: nat)
    requires n > 0 && i < j < i + n
    ensures i % n != j % n
  {
    if i % n == j % n {
      var d := j / n - i / n;
      assert n * d == j - i;
      ProductSign(n, d);
      assert false;
    }
  }

  lemma {:induction false} ChunksAgree(frameSize: nat, a: seq<nat>, b: seq<nat>, lo: nat, hi: nat)
    requires |a| == |b| > 0
    requires forall j: nat :: lo <= j < hi ==> a[j % |a|] == b[j % |a|]
    ensures Chunks(frameSize, a, lo, hi) == Chunks(frameSize, b, lo, hi)
    decreases hi - lo
  {
    hide Chunks, ChunkOf;
    if lo < hi {
      ChunksAgree(frameSize, a, b, lo, hi - 1);
      ChunksLast(frameSize, a, lo, hi);
      ChunksLast(frameSize, b, lo, hi);
      assert a[(hi - 1) % |a|] == b[(hi - 1) % |a|];
    } else {
      ChunksEmpty(frameSize, a, lo, hi);
      ChunksEmpty(frameSize, b, lo, hi);
    }
  }

  // Writing the slot of counter k leaves alone every other counter within reach.
  lemma WriteElsewhere(frameSize: nat, a: seq<nat>, k: nat, addr: nat, lo: nat, hi: nat)
    requires |a| > 0 && lo <= hi <= k < lo + |a|
    ensures Chunks(frameSize, a[k % |a| := addr], lo, hi) == Chunks(frameSize, a, lo, hi)
  {
    forall j: nat | lo <= j < hi
      ensures a[k % |a| := addr][j % |a|] == a[j % |a|]
    {
      DistinctSlots(|a|, j, k);
    }
    ChunksAgree(frameSize, a[k % |a| := addr], a, lo, hi);
  }

  lemma {:induction false} ChunksSplit(frameSize: nat, a: seq<nat>, lo: nat, mid: nat, hi: nat)
    requires |a| > 0 && lo <= mid <= hi
    ensures Chunks(frameSize, a, lo, hi) == Chunks(frameSize, a, lo, mid) + Chunks(frameSize, a, mid, hi)
    decreases hi - mid
  {
    hide Chunks, ChunkOf;
    if mid < hi {
      ChunksSplit(frameSize, a, lo, mid, hi - 1);
      ChunksLast(frameSize, a, lo, hi);
      ChunksLast(frameSize, a, mid, hi);
    } else {
      ChunksEmpty(frameSize, a, hi, hi);
    }
  }

  lemma ChunksEmpty(frameSize: nat, a: seq<nat>, lo: nat, hi: nat)
    requires |a| > 0 && hi <= lo
    ensures Chunks(frameSize, a, lo, hi) == multiset{}
  {
  }

  lemma ChunksLast(frameSize: nat, a: seq<nat>, lo: nat, hi: nat)
    requires |a| > 0 && lo < hi
    ensures Chunks(frameSize, a, lo, hi) ==
      Chunks(frameSize, a, lo, hi - 1) + multiset{ChunkOf(frameSize, a[(hi - 1) % |a|])}
  {
  }

  // Counters shifted against each other but holding the same addresses.
  lemma {:induction false} ChunksMoved(frameSize: nat, a: seq<nat>, b: seq<nat>, lo: nat, to: nat, count: nat)
    requires |a| > 0 && |b| > 0
    requires forall j: nat :: j < count ==> SameAt(a, b, lo, to, j)
    ensures Chunks(frameSize, a, lo, lo + count) == Chunks(frameSize, b, to, to + count)
    decreases count
  {
    if count > 0 {
      ChunksMoved(frameSize, a, b, lo, to, count - 1);
      assert SameAt(a, b, lo, to, count - 1);
      assert lo + count - 1 == lo + (count - 1) && to + count - 1 == to + (count - 1);
    }
  }

  lemma {:induction false} ChunksSize(frameSize: nat, a: seq<nat>, lo: nat, hi: nat)
    requires |a| > 0 && lo <= hi
    ensures |Chunks(frameSize, a, lo, hi)| == hi - lo
    decreases hi - lo
  {
    if lo < hi {
      ChunksSize(frameSize, a, lo, hi - 1);
    }
  }

  lemma {:induction false} AllFramesOnce(n: nat)
    ensures |AllFrames(n)| == n
    ensures forall f: nat :: AllFrames(n)[f] == if f < n then 1 else 0
  {
    if n > 0 {
      AllFramesOnce(n - 1);
    }
  }

  // Conservation bounds the fill ring: what a release still has to give back
  // always fits, although the code never checks for room.
  lemma ReleaseFits(s: State)
    requires Inv(s)
    ensures s.fillProd - s.fillCons + |s.held| + (s.rxProd - FirstKept(s)) == s.Size()
    ensures s.user.Copying? ==> s.fillProd + s.user.count <= s.fillCons + s.Size()
  {
    ChunksSize(s.frameSize, s.fill, s.fillCons, s.fillProd);
    ChunksSize(s.frameSize, Addrs(s.rx), FirstKept(s), s.rxProd);
    AllFramesOnce(s.Size());
    assert |InFill(s) + s.held + InRx(s)| == |InFill(s)| + |s.held| + |InRx(s)|;
  }

  lemma ChunksFirst(frameSize: nat, a: seq<nat>, lo: nat, hi: nat)
    requires |a| > 0 && lo < hi
    ensures Chunks(frameSize, a, lo, hi)
      == Chunks(frameSize, a, lo + 1, hi) + multiset{ChunkOf(frameSize, a[lo % |a|])}
  {
    ChunksSplit(frameSize, a, lo, lo + 1, hi);
    assert Chunks(frameSize, a, lo, lo) == multiset{};
    assert Chunks(frameSize, a, lo, lo + 1) == multiset{ChunkOf(frameSize, a[lo % |a|])};
  }

  // ---- Every step keeps the invariant ---------------------------------------

  lemma TakeKeeps(s: State)
    requires Inv(s) && Enabled(Unbounded, s, KernelTake)
    ensures Inv(Next(Unbounded, s, KernelTake))
  {
    hide Chunks, Pow2, SameAt, AllFrames;
    var t := Next(Unbounded, s, KernelTake);
    ChunksFirst(s.frameSize, s.fill, s.fillCons, s.fillProd);
    MoveMiddle(InFill(t), s.held, InRx(s), multiset{s.Chunk(s.fill[s.fillCons % s.Size()])});
    assert Releasing(t) by {
      SameRelease(s, t);
    }
  }

  // A release in progress only looks at the slots it has read and written.
  lemma SameRelease(s: State, t: State)
    requires Shaped(s) && Shaped(t) && Releasing(s)
    requires t.order == s.order
    requires t.fill == s.fill && t.rx == s.rx && t.user == s.user
    requires t.fillProd == s.fillProd && t.rxCons == s.rxCons && t.rxProd == s.rxProd
    ensures Releasing(t)
  {
    hide Pow2, SameAt;
    forall j: nat | t.user.Copying? && j < t.user.done
      ensures Copied(t, j)
    {
      assert Copied(s, j);
    }
  }

  lemma MoveMiddle(f: multiset<nat>, h: multiset<nat>, r: multiset<nat>, x: multiset<nat>)
    ensures (f + x) + h + r == f + (h + x) + r
    ensures f + h + (x + r) == (f + x) + h + r
    ensures f + (h + x) + r == f + h + (r + x)
  {
  }

  lemma PushKeeps(s: State, addr: nat, len: nat)
    requires Inv(s) && Enabled(Unbounded, s, KernelPush(addr, len))
    ensures Inv(Next(Unbounded, s, KernelPush(addr, len)))
  {
    hide Chunks, Pow2, SameAt, AllFrames, ChunkOf, Conserved;
    var t := Next(Unbounded, s, KernelPush(addr, len));
    PushConserves(s, addr, len);
    assert Addrs(t.rx) == Addrs(s.rx)[s.rxProd % s.Size() := addr];
    PushReleasing(s, t, addr);
  }

  lemma PushConserves(s: State, addr: nat, len: nat)
    requires Shaped(s) && Conserved(s) && Enabled(Unbounded, s, KernelPush(addr, len))
    ensures var t := Next(Unbounded, s, KernelPush(addr, len)); Shaped(t) && Conserved(t)
  {
    PushEnters(s, addr, len);
    hide Shaped, Conserved, InRx, InFill, Pow2, ChunkOf;
    PushMoves(s, Next(Unbounded, s, KernelPush(addr, len)), multiset{s.Chunk(addr)});
  }

  // The frame is now among the receive entries, and the fill ring is as it was.
  lemma PushEnters(s: State, addr: nat, len: nat)
    requires Shaped(s) && Enabled(Unbounded, s, KernelPush(addr, len))
    ensures var t := Next(Unbounded, s, KernelPush(addr, len));
      && Shaped(t) && InFill(t) == InFill(s)
      && InRx(t) == InRx(s) + multiset{s.Chunk(addr)}
  {
    var t := Next(Unbounded, s, KernelPush(addr, len));
    PushShaped(s, addr, len);
    hide Chunks, Pow2, ChunkOf, Addrs, InRx;
    PushedEntries(s, t, addr);
  }

  lemma PushedEntries(s: State, t: State, addr: nat)
    requires Shaped(s) && Shaped(t)
    requires Addrs(t.rx) == Addrs(s.rx)[s.rxProd % |s.rx| := addr]
    requires FirstKept(t) == FirstKept(s) && t.rxProd == s.rxProd + 1 && t.frameSize == s.frameSize
    requires s.rxProd < FirstKept(s) + |s.rx|
    ensures InRx(t) == InRx(s) + multiset{s.Chunk(addr)}
  {
    PushedChunks(s.frameSize, Addrs(s.rx), s.rxProd, addr, FirstKept(s));
    hide Chunks, Shaped, FirstKept, ChunkOf;
  }

  lemma PushShaped(s: State, addr: nat, len: nat)
    requires Shaped(s) && Enabled(Unbounded, s, KernelPush(addr, len))
    ensures var t := Next(Unbounded, s, KernelPush(addr, len));
      Shaped(t) && Addrs(t.rx) == Addrs(s.rx)[s.rxProd % |s.rx| := addr]
  {
    hide Pow2, ChunkOf;
  }

  lemma PushMoves(s: State, t: State, x: multiset<nat>)
    requires Shaped(s) && Shaped(t) && Conserved(s)
    requires x <= s.held && t.held == s.held - x
    requires t.order == s.order && InFill(t) == InFill(s) && InRx(t) == InRx(s) + x
    ensures Conserved(t)
  {
    hide Pow2, InFill, InRx, AllFrames;
    assert s.held == t.held + x;
    MoveMiddle(InFill(s), t.held, InRx(s), x);
  }

  lemma PushedChunks(frameSize: nat, a: seq<nat>, prod: nat, addr: nat, lo: nat)
    requires |a| > 0 && lo <= prod < lo + |a|
    ensures Chunks(frameSize, a[prod % |a| := addr], lo, prod + 1)
      == Chunks(frameSize, a, lo, prod) + multiset{ChunkOf(frameSize, addr)}
  {
    WriteElsewhere(frameSize, a, prod, addr, lo, prod);
  }

  lemma PushReleasing(s: State, t: State, addr: nat)
    requires Shaped(s) && Shaped(t) && Releasing(s)
    requires s.rxProd - s.rxCons < s.Size()
    requires t.order == s.order
    requires Addrs(t.rx) == Addrs(s.rx)[s.rxProd % s.Size() := addr]
    requires t.fill == s.fill && t.user == s.user && t.rxProd == s.rxProd + 1
    requires t.fillProd == s.fillProd && t.rxCons == s.rxCons
    ensures Releasing(t)
  {
    hide Pow2;
    forall j: nat | t.user.Copying? && j < t.user.done
      ensures Copied(t, j)
    {
      assert Copied(s, j);
      DistinctSlots(s.Size(), s.rxCons + j, s.rxProd);
    }
  }

  lemma CopyKeeps(s: State)
    requires Inv(s) && Enabled(Unbounded, s, CopyOne)
    ensures Inv(Next(Unbounded, s, CopyOne))
  {
    hide Chunks, Pow2, AllFrames;
    var t := Next(Unbounded, s, CopyOne);
    ReleaseFits(s);
    WriteElsewhere(s.frameSize, s.fill, s.fillProd + s.user.done,
                   s.rx[(s.rxCons + s.user.done) % s.Size()].addr, s.fillCons, s.fillProd);
    assert InRx(t) == InRx(s);
    assert Releasing(t) by {
      CopyReleasing(s);
    }
  }

  lemma CopyReleasing(s: State)
    requires Shaped(s) && Releasing(s) && Enabled(Unbounded, s, CopyOne)
    requires s.user.count <= s.Size()
    ensures Shaped(Next(Unbounded, s, CopyOne)) && Releasing(Next(Unbounded, s, CopyOne))
  {
    hide Pow2;
    var t := Next(Unbounded, s, CopyOne);
    forall j: nat | j < t.user.done
      ensures Copied(t, j)
    {
      if j < s.user.done {
        assert Copied(s, j);
        DistinctSlots(s.Size(), s.fillProd + j, s.fillProd + s.user.done);
      }
    }
  }

  lemma PublishFillKeeps(s: State)
    requires Inv(s) && Enabled(Unbounded, s, PublishFill)
    ensures Inv(Next(Unbounded, s, PublishFill))
  {
    hide Chunks, Pow2, AllFrames;
    var t := Next(Unbounded, s, PublishFill);
    var count := s.user.count;
    PublishedChunks(s);
    var moved := Chunks(s.frameSize, s.fill, s.fillProd, s.fillProd + count);
    MoveMiddle(InFill(s), s.held, InRx(t), moved);
  }

  lemma PublishedChunks(s: State)
    requires Shaped(s) && Releasing(s) && Enabled(Unbounded, s, PublishFill)
    ensures var moved := Chunks(s.frameSize, s.fill, s.fillProd, s.fillProd + s.user.count);
      && Chunks(s.frameSize, s.fill, s.fillCons, s.fillProd + s.user.count) == InFill(s) + moved
      && InRx(s) == moved + Chunks(s.frameSize, Addrs(s.rx), s.rxCons + s.user.count, s.rxProd)
  {
    hide Chunks, Pow2, SameAt;
    var count := s.user.count;
    forall j: nat | j < count
      ensures SameAt(s.fill, Addrs(s.rx), s.fillProd, s.rxCons, j)
    {
      assert Copied(s, j);
    }
    ChunksMoved(s.frameSize, s.fill, Addrs(s.rx), s.fillProd, s.rxCons, count);
    ChunksSplit(s.frameSize, s.fill, s.fillCons, s.fillProd, s.fillProd + count);
    ChunksSplit(s.frameSize, Addrs(s.rx), s.rxCons, s.rxCons + count, s.rxProd);
  }

  lemma BeginKeeps(s: State, count: nat)
    requires Inv(s) && Enabled(Unbounded, s, BeginRelease(count))
    ensures Inv(Next(Unbounded, s, BeginRelease(count)))
  {
    hide Chunks, Pow2, SameAt, AllFrames;
  }

  lemma PublishRxKeeps(s: State)
    requires Inv(s) && Enabled(Unbounded, s, PublishRx)
    ensures Inv(Next(Unbounded, s, PublishRx))
  {
    hide Chunks, Pow2, SameAt, AllFrames;
  }

  lemma StepKeeps(s: State, a: Action)
    requires Inv(s) && Enabled(Unbounded, s, a)
    ensures Inv(Next(Unbounded, s, a))
  {
    hide Inv, Enabled, Next;
    match a
    case KernelTake => TakeKeeps(s);
    case KernelPush(addr, len) => PushKeeps(s, addr, len);
    case BeginRelease(count) => BeginKeeps(s, count);
    case CopyOne => CopyKeeps(s);
    case PublishFill => PublishFillKeeps(s);
    case PublishRx => PublishRxKeeps(s);
  }

  // ---- Runs -----------------------------------------------------------------

  ghost predicate Runs(w: Counters, s: State, actions: seq<Action>)
    decreases |actions|
  {
    actions == [] || (Enabled(w, s, actions[0]) && Runs(w, Next(w, s, actions[0]), actions[1..]))
  }

  ghost function After(w: Counters, s: State, actions: seq<Action>): State
    requires Runs(w, s, actions)
    decreases |actions|
  {
    if actions == [] then s else After(w, Next(w, s, actions[0]), actions[1..])
  }

  lemma CreatedInv(order: nat, frameSize: nat, rx: seq<Desc>)
    requires order <= 31 && frameSize > 0 && |rx| == Pow2(order)
    ensures Inv(Created(order, frameSize, rx))
  {
    var s := Created(order, frameSize, rx);
    FilledChunks(frameSize, s.fill, s.Size());
  }

  lemma {:induction false} FilledChunks(frameSize: nat, a: seq<nat>, n: nat)
    requires frameSize > 0 && 0 <= n <= |a| && |a| > 0
    requires forall i :: 0 <= i < |a| ==> a[i] == i * frameSize
    ensures Chunks(frameSize, a, 0, n) == AllFrames(n)
  {
    if n > 0 {
      FilledChunks(frameSize, a, n - 1);
      DivModUnique(n - 1, |a|, 0, n - 1);
      ChunkOfStart(frameSize, n - 1);
      assert a[(n - 1) % |a|] == (n - 1) * frameSize;
      hide ChunkOf;
    }
  }

  lemma ChunkOfStart(frameSize: nat, i: nat)
    requires frameSize > 0
    ensures ChunkOf(frameSize, i * frameSize) == i
  {
  }

  // ---- The 32-bit machine is the unbounded one ------------------------------

  // The same rings with every counter reduced to 32 bits.
  function Wrap(s: State): State {
    s.(fillProd := s.fillProd % U32, fillCons := s.fillCons % U32, fillCached := s.fillCached % U32,
       rxProd := s.rxProd % U32, rxCons := s.rxCons % U32, rxCached := s.rxCached % U32)
  }

  lemma SlotsAgree(order: nat, x: nat)
    requires order <= 31
    ensures Slot(Wrapped, order, x % U32) == Slot(Unbounded, order, x)
  {
    MaskIsMod(x % U32, order);
    WrapThenMod(x, order);
  }

  lemma AddsAgree(order: nat, x: nat, d: nat)
    requires order <= 31
    ensures Add(Wrapped, x % U32, d) == Add(Unbounded, x, d) % U32
    ensures Slot(Wrapped, order, Add(Wrapped, x % U32, d)) == Slot(Unbounded, order, Add(Unbounded, x, d))
  {
    WrapAdd(x, d);
    SlotsAgree(order, x + d);
  }

  lemma DistancesAgree(order: nat, p: nat, c: nat)
    requires order <= 31 && c <= p <= c + Pow2(order)
    ensures Distance(Wrapped, p % U32, c % U32) == Distance(Unbounded, p, c)
  {
    Pow2Divides(order, 32);
    Pow2Is32();
    Pow2Half(order);
    WrapDistance(p, c);
  }

  lemma {:induction false} Pow2Half(order: nat)
    requires order <= 31
    ensures Pow2(order) < U32
    decreases 31 - order
  {
    if order == 31 {
      Pow2Is32();
    } else {
      Pow2Half(order + 1);
    }
  }

  // One step with wrapped counters is one step with unbounded ones, seen through
  // the wrap: enabled together, with the same effect.
  lemma StepsAgree(s: State, a: Action)
    requires Inv(s)
    ensures Enabled(Wrapped, Wrap(s), a) <==> Enabled(Unbounded, s, a)
    ensures Enabled(Unbounded, s, a) ==> Next(Wrapped, Wrap(s), a) == Wrap(Next(Unbounded, s, a))
  {
    ReleaseFits(s);
    InvShaped(s);
    hide Inv, Enabled, Next, Wrap, Pow2;
    if a.KernelTake? || a.KernelPush? {
      KernelAgrees(s, a);
    } else {
      UserAgrees(s, a);
    }
  }

  lemma KernelAgrees(s: State, a: Action)
    requires Shaped(s) && s.fillProd <= s.fillCons + s.Size()
    requires a.KernelTake? || a.KernelPush?
    ensures Enabled(Wrapped, Wrap(s), a) <==> Enabled(Unbounded, s, a)
    ensures Enabled(Unbounded, s, a) ==> Next(Wrapped, Wrap(s), a) == Wrap(Next(Unbounded, s, a))
  {
    DistancesAgree(s.order, s.fillProd, s.fillCons);
    DistancesAgree(s.order, s.rxProd, s.rxCons);
    SlotsAgree(s.order, s.fillCons);
    SlotsAgree(s.order, s.rxProd);
    AddsAgree(s.order, s.fillCons, 1);
    AddsAgree(s.order, s.rxProd, 1);
    hide Slot, Add, Distance, Pow2;
  }

  lemma UserAgrees(s: State, a: Action)
    requires Shaped(s) && !a.KernelTake? && !a.KernelPush?
    ensures Enabled(Wrapped, Wrap(s), a) <==> Enabled(Unbounded, s, a)
    ensures Enabled(Unbounded, s, a) ==> Next(Wrapped, Wrap(s), a) == Wrap(Next(Unbounded, s, a))
  {
    DistancesAgree(s.order, s.rxProd, s.rxCons);
    hide Slot, Distance, Pow2;
    match s.user
    case Idle =>
    case Copying(count, done) =>
      AddsAgree(s.order, s.rxCached, done);
      AddsAgree(s.order, s.fillCached, done);
      AddsAgree(s.order, s.fillCached, count);
    case Published(count) =>
      AddsAgree(s.order, s.rxCached, count);
  }

  // Every run of the 32-bit machine, however the kernel and user code interleave
  // and however often the counters wrap, is a run that keeps the invariant.
  lemma {:induction false} RunKeeps(s: State, actions: seq<Action>)
    requires Inv(s) && Runs(Wrapped, Wrap(s), actions)
    ensures Runs(Unbounded, s, actions)
    ensures Inv(After(Unbounded, s, actions))
    ensures After(Wrapped, Wrap(s), actions) == Wrap(After(Unbounded, s, actions))
    decreases |actions|
  {
    hide Inv, Enabled, Next;
    if actions != [] {
      StepsAgree(s, actions[0]);
      StepKeeps(s, actions[0]);
      RunKeeps(Next(Unbounded, s, actions[0]), actions[1..]);
    }
  }

  // ---- What the kernel leaves alone -----------------------------------------

  predicate KernelStep(a: Action) {
    a.KernelTake? || a.KernelPush?
  }

  // From s to t only the kernel has moved: the receive entries that user code has not
  // given back are where and what they were, and more may have come.
  predicate SameBatch(s: State, t: State) {
    && t.order == s.order && t.frameSize == s.frameSize && t.user == s.user
    && |t.rx| == |s.rx| == s.Size() && |t.fill| == |s.fill|
    && t.fillProd == s.fillProd && t.fillCached == s.fillCached
    && t.rxCons == s.rxCons && t.rxCached == s.rxCached
    && s.rxProd <= t.rxProd
    && forall k: nat :: s.rxCons <= k < s.rxProd ==> t.rx[k % s.Size()] == s.rx[k % s.Size()]
  }

  lemma KernelKeepsBatch(s: State, a: Action)
    requires Inv(s) && KernelStep(a) && Enabled(Unbounded, s, a)
    ensures SameBatch(s, Next(Unbounded, s, a))
  {
    hide Pow2;
    if a.KernelPush? {
      var t := Next(Unbounded, s, a);
      forall k: nat | s.rxCons <= k < s.rxProd
        ensures t.rx[k % s.Size()] == s.rx[k % s.Size()]
      {
        DistinctSlots(s.Size(), k, s.rxProd);
      }
    }
  }

  lemma SameBatchOn(s: State, t: State, u: State)
    requires SameBatch(s, t) && SameBatch(t, u)
    ensures SameBatch(s, u)
  {
    hide Pow2;
  }

  // So a batch can be read while the kernel runs: after any run of kernel steps, with
  // 32-bit counters, the entries that were there to be read are still the same.
  lemma {:induction false} KernelRunKeepsBatch(s: State, actions: seq<Action>)
    requires Inv(s) && Runs(Wrapped, Wrap(s), actions)
    requires forall i :: 0 <= i < |actions| ==> KernelStep(actions[i])
    ensures Runs(Unbounded, s, actions)
    ensures SameBatch(s, After(Unbounded, s, actions))
    ensures After(Wrapped, Wrap(s), actions) == Wrap(After(Unbounded, s, actions))
    decreases |actions|
  {
    InvShaped(s);
    if actions != [] {
      StepsAgree(s, actions[0]);
      StepKeeps(s, actions[0]);
      KernelKeepsBatch(s, actions[0]);
      hide Inv, Next, Enabled, Wrap, SameBatch;
      var t := Next(Unbounded, s, actions[0]);
      KernelRunKeepsBatch(t, actions[1..]);
      SameBatchOn(s, t, After(Unbounded, t, actions[1..]));
    }
  }

  // What the invariant means for each frame: it is in exactly one of the three
  // places, and nothing that is not a frame is in any of them.
  lemma OnePlace(s: State, f: nat)
    requires Inv(s)
    ensures InFill(s)[f] + s.held[f] + InRx(s)[f] == if f < s.Size() then 1 else 0
  {
    AllFramesOnce(s.Size());
    assert AllFrames(s.Size())[f] == (InFill(s) + s.held + InRx(s))[f];
  }

  ghost predicate EachOnce(s: State)
    requires Shaped(s)
  {
    forall f: nat :: InFill(s)[f] + s.held[f] + InRx(s)[f] == if f < s.Size() then 1 else 0
  }

  // The slot that a release writes next, computed with 32-bit counters, is not the
  // slot of any entry that the kernel has yet to read.
  ghost predicate NothingOverwritten(s: State) {
    s.user.Copying? && s.user.done < s.user.count ==>
      forall k: nat :: s.fillCons <= k < s.fillProd ==>
        Slot(Wrapped, s.order, Add(Wrapped, s.fillCached % U32, s.user.done)) != Slot(Wrapped, s.order, k % U32)
  }

  lemma NoOverwrite(s: State, k: nat)
    requires Inv(s) && s.user.Copying? && s.user.done < s.user.count
    requires s.fillCons <= k < s.fillProd
    ensures Slot(Wrapped, s.order, Add(Wrapped, s.fillCached % U32, s.user.done)) != Slot(Wrapped, s.order, k % U32)
  {
    AddsAgree(s.order, s.fillCached, s.user.done);
    SlotsAgree(s.order, k);
    hide And;
    ReleaseFits(s);
    DistinctSlots(s.Size(), k, s.fillProd + s.user.done);
  }

  lemma InvIsSafe(s: State)
    requires Inv(s)
    ensures Shaped(s) && EachOnce(s) && NothingOverwritten(s)
  {
    InvShaped(s);
    hide Inv, Slot, Add, InFill, InRx, Shaped;
    forall f: nat
      ensures InFill(s)[f] + s.held[f] + InRx(s)[f] == if f < s.Size() then 1 else 0
    {
      OnePlace(s, f);
    }
    if s.user.Copying? && s.user.done < s.user.count {
      forall k: nat | s.fillCons <= k < s.fillProd
        ensures Slot(Wrapped, s.order, Add(Wrapped, s.fillCached % U32, s.user.done)) != Slot(Wrapped, s.order, k % U32)
      {
        NoOverwrite(s, k);
      }
    }
  }

  // For every run from creation, with 32-bit counters: each frame is in exactly
  // one place, and a release in progress overwrites no unread fill slot.
  lemma EveryRunIsSafe(order: nat, frameSize: nat, rx: seq<Desc>, actions: seq<Action>)
    requires order <= 31 && frameSize > 0 && |rx| == Pow2(order)
    requires Runs(Wrapped, Wrap(Created(order, frameSize, rx)), actions)
    ensures var start := Created(order, frameSize, rx);
      && Runs(Unbounded, start, actions)
      && var s := After(Unbounded, start, actions);
      && After(Wrapped, Wrap(start), actions) == Wrap(s)
      && s.order == order
      && Shaped(s) && EachOnce(s) && NothingOverwritten(s)
  {
    hide Inv, Runs, After, Created, Shaped, EachOnce, NothingOverwritten, Wrap;
    var start := Created(order, frameSize, rx);
    CreatedInv(order, frameSize, rx);
    RunKeeps(start, actions);
    SameOrder(Unbounded, start, actions);
    CreatedOrder(order, frameSize, rx);
    InvIsSafe(After(Unbounded, start, actions));
  }

  lemma CreatedOrder(order: nat, frameSize: nat, rx: seq<Desc>)
    ensures Created(order, frameSize, rx).order == order
  {
  }

  lemma InvShaped(s: State)
    requires Inv(s)
    ensures Shaped(s)
  {
  }

  lemma {:induction false} SameOrder(w: Counters, s: State, actions: seq<Action>)
    requires Runs(w, s, actions)
    ensures After(w, s, actions).order == s.order
    decreases |actions|
  {
    if actions != [] {
      SameOrder(w, Next(w, s, actions[0]), actions[1..]);
    }
  }
}
