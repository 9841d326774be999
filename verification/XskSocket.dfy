/**
 The user side of the rings as the object whose arrays and counters are updated
 in place.  Between two calls of user code nothing here changes; what the kernel
 does meanwhile is the business of the state machine in `XskRings`, whose single
 steps a release is proved to perform.
 */
module XskSocket {
  import opened Words
  import opened XskRings

  lemma SlotInRange(order: nat, x: nat)
    ensures Slot(Wrapped, order, x) < Pow2(order)
  {
    MaskIsMod(x, order);
  }

  // The receive entry a counter stands for.
  function EntryAt(rx: seq<Desc>, order: nat, x: nat): Desc
    requires |rx| == Pow2(order)
  {
    SlotInRange(order, x);
    rx[Slot(Wrapped, order, x)]
  }

  // With 32-bit counters it is the entry that the unbounded counter stands for.
  lemma EntryIs(rx: seq<Desc>, order: nat, cons: nat, idx: nat)
    requires |rx| == Pow2(order) && order <= 31
    ensures EntryAt(rx, order, Add(Wrapped, cons % U32, idx)) == rx[(cons + idx) % |rx|]
  {
    AddsAgree(order, cons, idx);
  }

  // What a peek sees is the number of entries not given back.
  lemma AvailableIs(s: State)
    requires Inv(s) && s.user == Idle
    ensures Available(Wrapped, Wrap(s)) == s.rxProd - s.rxCons < U32
  {
    DistancesAgree(s.order, s.rxProd, s.rxCons);
    Pow2Half(s.order);
  }

  // Entry i of the batch at s.
  predicate Read(s: State, i: nat, desc: Desc) {
    |s.rx| == s.Size() && desc == s.rx[(s.rxCons + i) % s.Size()]
  }

  lemma ReadSame(s: State, t: State, i: nat, desc: Desc)
    requires SameBatch(s, t) && i < s.rxProd - s.rxCons
    requires Read(t, i, desc)
    ensures Read(s, i, desc)
  {
    hide Pow2;
    assert s.rxCons <= s.rxCons + i < s.rxProd;
  }

  lemma SameBatchIs(s: State, t: State)
    requires SameBatch(s, t)
    ensures t.user == s.user && t.rxCons == s.rxCons && t.fillProd == s.fillProd && s.rxProd <= t.rxProd
  {
  }

  lemma SameBatchAsIs(s: State)
    requires |s.rx| == s.Size()
    ensures SameBatch(s, s)
  {
  }

  // The fill array after entry i of a release is copied.
  function CopiedEntry(fill: seq<nat>, rx: seq<Desc>, order: nat, prod: nat, cons: nat, i: nat): (r: seq<nat>)
    requires |fill| == |rx| == Pow2(order)
    ensures |r| == |fill|
  {
    SlotInRange(order, Add(Wrapped, prod, i));
    fill[Slot(Wrapped, order, Add(Wrapped, prod, i)) := EntryAt(rx, order, Add(Wrapped, cons, i)).addr]
  }

  // The fill array once entries done, ..., count - 1 of a release are copied too.
  function Filled(fill: seq<nat>, rx: seq<Desc>, order: nat, prod: nat, cons: nat, done: nat, count: nat): (r: seq<nat>)
    requires |fill| == |rx| == Pow2(order)
    ensures |r| == |fill|
    decreases count - done
  {
    if done >= count then fill
    else Filled(CopiedEntry(fill, rx, order, prod, cons, done), rx, order, prod, cons, done + 1, count)
  }

  lemma FilledFirst(fill: seq<nat>, rx: seq<Desc>, order: nat, prod: nat, cons: nat, i: nat, count: nat)
    requires |fill| == |rx| == Pow2(order)
    ensures Filled(fill, rx, order, prod, cons, i, count) ==
      if i >= count then fill
      else Filled(CopiedEntry(fill, rx, order, prod, cons, i), rx, order, prod, cons, i + 1, count)
  {
  }

  // The rings after a whole release with no kernel step in between.
  function Released(s: State, count: nat): State
    requires |s.fill| == |s.rx| == s.Size()
  {
    s.(fill := Filled(s.fill, s.rx, s.order, s.fillCached, s.rxCached, 0, count),
       fillProd := Add(Wrapped, s.fillCached, count),
       fillCached := Add(Wrapped, s.fillCached, count),
       rxCons := Add(Wrapped, s.rxCached, count),
       rxCached := Add(Wrapped, s.rxCached, count),
       user := Idle)
  }

  function Copies(n: nat): seq<Action> {
    seq(n, _ => CopyOne)
  }

  // The actions of a release, in order.
  function ReleaseActions(count: nat): seq<Action> {
    [BeginRelease(count)] + (Copies(count) + [PublishFill, PublishRx])
  }

  lemma {:induction false} CopiesRun(s: State, count: nat, done: nat)
    requires |s.fill| == |s.rx| == s.Size()
    requires s.user == Copying(count, done) && done <= count
    ensures var run := Copies(count - done) + [PublishFill, PublishRx];
      var fill := Filled(s.fill, s.rx, s.order, s.fillCached, s.rxCached, done, count);
      && Runs(Wrapped, s, run)
      && After(Wrapped, s, run) == s.(fill := fill,
           fillProd := Add(Wrapped, s.fillCached, count), fillCached := Add(Wrapped, s.fillCached, count),
           rxCons := Add(Wrapped, s.rxCached, count), rxCached := Add(Wrapped, s.rxCached, count), user := Idle)
    decreases count - done
  {
    var run := Copies(count - done) + [PublishFill, PublishRx];
    hide Slot, Add, Pow2;
    if done == count {
      assert run == [PublishFill, PublishRx];
      assert run[1..] == [PublishRx] && [PublishRx][1..] == [];
      var t := Next(Wrapped, s, PublishFill);
      var u := Next(Wrapped, t, PublishRx);
      assert Runs(Wrapped, u, []) && After(Wrapped, u, []) == u;
      assert Runs(Wrapped, t, [PublishRx]) && After(Wrapped, t, [PublishRx]) == u;
    } else {
      SlotInRange(s.order, Add(Wrapped, s.rxCached, done));
      SlotInRange(s.order, Add(Wrapped, s.fillCached, done));
      assert run[0] == CopyOne && run[1..] == Copies(count - (done + 1)) + [PublishFill, PublishRx];
      CopiesRun(Next(Wrapped, s, CopyOne), count, done + 1);
    }
  }

  // A release is a run of the state machine.
  lemma ReleaseIsRun(s: State, count: nat)
    requires |s.fill| == |s.rx| == s.Size()
    requires s.user == Idle && count <= Available(Wrapped, s)
    ensures Runs(Wrapped, s, ReleaseActions(count))
    ensures After(Wrapped, s, ReleaseActions(count)) == Released(s, count)
  {
    var run := ReleaseActions(count);
    assert run[0] == BeginRelease(count);
    assert run[1..] == Copies(count) + [PublishFill, PublishRx];
    hide Available, Pow2;
    CopiesRun(Next(Wrapped, s, BeginRelease(count)), count, 0);
  }

  // So releasing what was peeked keeps every frame in exactly one place.
  lemma ReleaseKeeps(s: State, count: nat) returns (t: State)
    requires Inv(s) && s.user == Idle && count <= Available(Wrapped, Wrap(s))
    ensures Inv(t) && Released(Wrap(s), count) == Wrap(t)
    ensures t.user == Idle && t.rxCons == s.rxCons + count && t.fillProd == s.fillProd + count
  {
    ReleaseIsRun(Wrap(s), count);
    RunKeeps(s, ReleaseActions(count));
    t := After(Unbounded, s, ReleaseActions(count));
    InvShaped(s);
    hide Inv;
    var run := ReleaseActions(count);
    assert run[0] == BeginRelease(count) && run[1..] == Copies(count) + [PublishFill, PublishRx];
    CopiesMove(Next(Unbounded, s, BeginRelease(count)), count, 0);
  }

  // What a release does to the unbounded counters.
  lemma {:induction false} CopiesMove(s: State, count: nat, done: nat)
    requires s.user == Copying(count, done) && done <= count
    requires Runs(Unbounded, s, Copies(count - done) + [PublishFill, PublishRx])
    ensures var t := After(Unbounded, s, Copies(count - done) + [PublishFill, PublishRx]);
      t.user == Idle && t.rxCons == s.rxCached + count && t.fillProd == s.fillCached + count
    decreases count - done
  {
    var run := Copies(count - done) + [PublishFill, PublishRx];
    hide Slot, Pow2;
    if done == count {
      assert run == [PublishFill, PublishRx];
      assert run[1..] == [PublishRx] && [PublishRx][1..] == [];
    } else {
      assert run[0] == CopyOne && run[1..] == Copies(count - (done + 1)) + [PublishFill, PublishRx];
      CopiesMove(Next(Unbounded, s, CopyOne), count, done + 1);
    }
  }

  class Socket {
    const order: nat
    const frameSize: nat
    const fill: array<nat>
    const rx: array<Desc>
    // Counters in memory shared with the kernel.
    var fillProd: nat
    var fillCons: nat
    var rxProd: nat
    var rxCons: nat
    // The user side's own copies.
    var fillCached: nat
    var rxCached: nat

    ghost predicate Valid()
      reads this
    {
      && order <= 31
      && fill.Length == rx.Length == Pow2(order)
      && fillProd < U32 && fillCons < U32 && rxProd < U32 && rxCons < U32
      && fillCached < U32 && rxCached < U32
    }

    function View(held: multiset<nat>): State
      reads this, fill, rx
    {
      State(order, frameSize, fill[..], fillProd, fillCons, fillCached,
            rx[..], rxProd, rxCons, rxCached, held, Idle)
    }

    // The rings as set up before the socket is bound.
    constructor (order: nat, frameSize: nat)
      requires order <= 31
      ensures Valid()
      ensures View(multiset{}) == Wrap(Created(order, frameSize, rx[..]))
      ensures fresh(fill) && fresh(rx)
    {
      var numFrames := Pow2(order);
      this.order, this.frameSize := order, frameSize;
      this.fill := new nat[numFrames];
      this.rx := new Desc[numFrames](_ => Desc(0, 0));
      this.fillCons, this.rxProd, this.rxCons, this.rxCached := 0, 0, 0, 0;
      this.fillProd, this.fillCached := numFrames, numFrames;
      new;
      Pow2Half(order);
      Prepopulate(fill, order, frameSize);
      assert fill[..] == Created(order, frameSize, rx[..]).fill;
    }

    static method Prepopulate(fill: array<nat>, order: nat, frameSize: nat)
      requires fill.Length == Pow2(order)
      modifies fill
      ensures forall j :: 0 <= j < fill.Length ==> fill[j] == j * frameSize
    {
      hide Pow2, And;
      var i := 0;
      while i < fill.Length
        invariant 0 <= i <= fill.Length
        invariant forall j :: 0 <= j < i ==> fill[j] == j * frameSize
      {
        MaskIsMod(i, order);
        DivModUnique(i, fill.Length, 0, i);
        fill[And(i, fill.Length - 1)] := i * frameSize;
        i := i + 1;
      }
    }

    method RxPeek(maxBatch: nat) returns (avail: nat)
      requires Valid()
      ensures avail <= maxBatch
      ensures avail <= Available(Wrapped, View(multiset{}))
      ensures avail == maxBatch || avail == Available(Wrapped, View(multiset{}))
    {
      avail := (rxProd - rxCached) % U32;
      if avail > maxBatch {
        avail := maxBatch;
      }
    }

    // Packet idx of a batch is the entry idx places after the consumer, with `cons` the
    // consumer as it would be in an unbounded counter.
    method RxPacket(idx: nat, ghost cons: nat) returns (addr: nat, len: nat)
      requires Valid() && cons % U32 == rxCached
      ensures Desc(addr, len) == rx[(cons + idx) % rx.Length]
    {
      EntryIs(rx[..], order, cons, idx);
      SlotInRange(order, Add(Wrapped, rxCached, idx));
      var desc := rx[And((rxCached + idx) % U32, Pow2(order) - 1)];
      addr, len := desc.addr, desc.len;
    }

    method RxRelease(count: nat)
      requires Valid() && count < U32
      modifies this, fill
      ensures Valid()
      ensures forall held :: View(held) == Released(old(View(held)), count)
    {
      var fqProd := CopyEntries(count);
      fillProd := fqProd;
      fillCached := fqProd;
      rxCached := (rxCached + count) % U32;
      rxCons := rxCached;
    }

    // The kernel takes those of the given steps that are its own and that it can take.
    // `held` is what it holds, `s` the rings with unbounded counters.
    method Kernel(steps: seq<Action>, held: multiset<nat>, ghost s: State)
      returns (left: multiset<nat>, ghost t: State)
      requires Valid() && Inv(s) && View(held) == Wrap(s)
      modifies this`fillCons, this`rxProd, rx
      ensures Valid() && Inv(t) && View(left) == Wrap(t) && SameBatch(s, t)
    {
      left, t := held, s;
      InvShaped(s);
      hide Pow2, And, Inv, SameBatch, Enabled, Next, Wrap;
      SameBatchAsIs(s);
      for i := 0 to |steps|
        invariant Valid() && Inv(t) && View(left) == Wrap(t) && SameBatch(s, t)
      {
        if KernelStep(steps[i]) && Enabled(Wrapped, View(left), steps[i]) {
          ghost var u := t;
          StepsAgree(u, steps[i]);
          StepKeeps(u, steps[i]);
          KernelKeepsBatch(u, steps[i]);
          t := Next(Unbounded, u, steps[i]);
          SameBatchOn(s, u, t);
          left := Move(steps[i], left);
        }
      }
    }

    method Move(a: Action, held: multiset<nat>) returns (left: multiset<nat>)
      requires Valid() && KernelStep(a) && Enabled(Wrapped, View(held), a)
      modifies this`fillCons, this`rxProd, rx
      ensures Valid()
      ensures View(left) == Next(Wrapped, old(View(held)), a)
    {
      hide Pow2, And;
      match a
      case KernelTake =>
        left := held + multiset{ChunkOf(frameSize, fill[Slot(Wrapped, order, fillCons)])};
        fillCons := Add(Wrapped, fillCons, 1);
      case KernelPush(addr, len) =>
        left := held - multiset{ChunkOf(frameSize, addr)};
        ghost var was := rx[..];
        rx[Slot(Wrapped, order, rxProd)] := Desc(addr, len);
        assert rx[..] == was[Slot(Wrapped, order, rxProd) := Desc(addr, len)];
        rxProd := Add(Wrapped, rxProd, 1);
    }

    // One round of the audio listener: what is there is read in order, up to a batch, and
    // then given back.  The kernel takes whatever steps it likes before every read and
    // before the release; what is read is what was there at the peek, and the frames are
    // where they should be at the end.
    method Serve(maxBatch: nat, env: nat -> seq<Action>, held: multiset<nat>, ghost s: State)
      returns (handed: seq<Desc>, left: multiset<nat>, ghost t: State)
      requires Valid() && Inv(s) && s.user == User.Idle && View(held) == Wrap(s)
      modifies this, fill, rx
      ensures Valid() && Inv(t) && View(left) == Wrap(t)
      ensures |handed| == if maxBatch < s.rxProd - s.rxCons then maxBatch else s.rxProd - s.rxCons
      ensures forall i :: 0 <= i < |handed| ==> Read(s, i, handed[i])
      ensures t.user == User.Idle && t.rxCons == s.rxCons + |handed| && t.fillProd == s.fillProd + |handed|
    {
      AvailableIs(s);
      hide Pow2, And, Inv, Available, Released, SameBatch, View, Wrap, Read;
      var count := Peek(maxBatch, held, s);
      handed, left, t := ReadBatch(count, env, held, s);
      ghost var u := t;
      left, t := Kernel(env(count), left, u);
      SameBatchOn(s, u, t);
      SameBatchIs(s, t);
      t := Release(count, left, t);
    }

    method Peek(maxBatch: nat, held: multiset<nat>, ghost s: State) returns (count: nat)
      requires Valid() && Inv(s) && s.user == User.Idle && View(held) == Wrap(s)
      ensures count == if maxBatch < s.rxProd - s.rxCons then maxBatch else s.rxProd - s.rxCons
    {
      AvailableIs(s);
      hide Inv, Distance;
      count := RxPeek(maxBatch);
    }

    method ReadBatch(count: nat, env: nat -> seq<Action>, held: multiset<nat>, ghost s: State)
      returns (handed: seq<Desc>, left: multiset<nat>, ghost t: State)
      requires Valid() && Inv(s) && View(held) == Wrap(s) && count <= s.rxProd - s.rxCons
      modifies this`fillCons, this`rxProd, rx
      ensures Valid() && Inv(t) && View(left) == Wrap(t) && SameBatch(s, t)
      ensures |handed| == count
      ensures forall i :: 0 <= i < count ==> Read(s, i, handed[i])
    {
      InvShaped(s);
      SameBatchAsIs(s);
      hide Pow2, And, Inv, SameBatch, View, Wrap, Read;
      handed, left, t := [], held, s;
      for i := 0 to count
        invariant |handed| == i
        invariant Valid() && Inv(t) && View(left) == Wrap(t) && SameBatch(s, t)
        invariant forall j :: 0 <= j < i ==> Read(s, j, handed[j])
      {
        var desc;
        desc, left, t := ReadNext(i, env(i), left, s, t);
        handed := handed + [desc];
      }
    }

    // The body of that loop: what the kernel does first leaves entry i of the batch alone.
    method ReadNext(i: nat, steps: seq<Action>, held: multiset<nat>, ghost s: State, ghost now: State)
      returns (desc: Desc, left: multiset<nat>, ghost t: State)
      requires Valid() && Inv(now) && View(held) == Wrap(now) && SameBatch(s, now) && i < s.rxProd - s.rxCons
      modifies this`fillCons, this`rxProd, rx
      ensures Valid() && Inv(t) && View(left) == Wrap(t) && SameBatch(s, t)
      ensures Read(s, i, desc)
    {
      hide Pow2, And, Inv, SameBatch, View, Wrap, Read;
      left, t := Kernel(steps, held, now);
      SameBatchOn(s, now, t);
      SameBatchIs(s, t);
      desc := ReadOne(i, left, t);
      ReadSame(s, t, i, desc);
    }

    method ReadOne(i: nat, held: multiset<nat>, ghost s: State) returns (desc: Desc)
      requires Valid() && Inv(s) && View(held) == Wrap(s) && i < s.rxProd - s.rxCons
      ensures Read(s, i, desc)
    {
      InvShaped(s);
      assert rx[..] == s.rx && rxCached == s.rxCons % U32;
      hide Inv, Pow2, And;
      var addr, len := RxPacket(i, s.rxCons);
      desc := Desc(addr, len);
    }

    // The release of a batch, with the rings as they would be in unbounded counters.
    method Release(count: nat, held: multiset<nat>, ghost s: State) returns (ghost t: State)
      requires Valid() && Inv(s) && s.user == User.Idle && View(held) == Wrap(s)
      requires count <= s.rxProd - s.rxCons
      modifies this, fill
      ensures Valid() && Inv(t) && View(held) == Wrap(t)
      ensures t.user == User.Idle && t.rxCons == s.rxCons + count && t.fillProd == s.fillProd + count
    {
      AvailableIs(s);
      t := ReleaseKeeps(s, count);
      hide Inv, Released, Pow2, Wrap, View;
      RxRelease(count);
    }

    // The loop of the release, up to the first store that the kernel can see.
    method CopyEntries(count: nat) returns (fqProd: nat)
      requires Valid()
      modifies fill
      ensures fqProd == Add(Wrapped, fillCached, count)
      ensures fill[..] == Filled(old(fill[..]), rx[..], order, fillCached, rxCached, 0, count)
    {
      ghost var rest := Filled(fill[..], rx[..], order, fillCached, rxCached, 0, count);
      hide Pow2, And, Filled, CopiedEntry;
      fqProd := fillCached;
      var i := 0;
      while i < count
        invariant 0 <= i <= count
        invariant fqProd == (fillCached + i) % U32
        invariant Filled(fill[..], rx[..], order, fillCached, rxCached, i, count) == rest
      {
        FilledFirst(fill[..], rx[..], order, fillCached, rxCached, i, count);
        CopyEntry(i, fqProd);
        WrapAdd(fillCached + i, 1);
        fqProd := (fqProd + 1) % U32;
        i := i + 1;
      }
      FilledFirst(fill[..], rx[..], order, fillCached, rxCached, count, count);
    }

    // The body of that loop.
    method CopyEntry(i: nat, fqProd: nat)
      requires Valid() && fqProd == Add(Wrapped, fillCached, i)
      modifies fill
      ensures fill[..] == CopiedEntry(old(fill[..]), rx[..], order, fillCached, rxCached, i)
    {
      hide Pow2, And;
      SlotInRange(order, Add(Wrapped, rxCached, i));
      SlotInRange(order, fqProd);
      var to := And(fqProd, Pow2(order) - 1);
      var desc := rx[And((rxCached + i) % U32, Pow2(order) - 1)];
      fill[to] := desc.addr;
    }
  }
}
