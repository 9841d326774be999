/**
 The listener closed around the clock it steers, from its first packet to lock for good.

 Whether edges are within tolerance of their timestamps is up to the servo once it steers
 the clock they come from.  Here it is not assumed: the edges are those of the steered
 clock, and the listener keeps pairing them because the servo converges.
 */
module ClosedLoop {
  import opened Reals
  import opened Words
  import Servo = PiServo
  import opened ServoLoop
  import opened WideLock
  import opened Measured
  import opened MeasuredLock
  import opened ColdStart
  import opened EdgeListener
  import Receiver = CrfReceiver
  import Pairing = EdgePairing

  // The edges from index k on as those of a steered clock.
  function PlantOf(st: Pairing.Stream, k: nat, T: real, a: real): Plant {
    Plant(T, a, n => st.edge(k + n))
  }

  function StampsOf(st: Pairing.Stream, k: nat): nat -> nat {
    n => st.stamp(k + n)
  }

  // The loop after n samples from index k on.
  function LoopOf(st: Pairing.Stream, k: nat, T: real, a: real, x: real, n: nat): Loop {
    FedAt(Servo.DEFAULTS, PlantOf(st, k, T, a), Start(x), StampsOf(st, k), n)
  }

  // ---- The listener is the loop -----------------------------------------------

  // The correction in force: the last one applied.
  function InForce(applied: seq<real>): real {
    if applied == [] then 0.0 else applied[|applied| - 1]
  }

  // Samples are small enough for the 64-bit difference to be the difference.
  predicate Small(st: Pairing.Stream, k: nat) {
    Magnitude(st.edge(k) as int - st.stamp(k) as int) < U64 / 2
  }

  // The listener's servo and correction are the loop's after n samples.
  predicate Follows(st: Pairing.Stream, k: nat, T: real, a: real, x: real, s: State, n: nat) {
    var l := LoopOf(st, k, T, a, x, n);
    !s.frozen && s.servo == l.servo && InForce(s.applied) == l.applied
  }

  ghost predicate CloseFrom(c: Config, st: Pairing.Stream, k: nat) {
    forall i: nat :: i >= k ==> Pairing.Close(st, c.tolerance, i) && Small(st, i)
  }

  predicate Steering(c: Config) {
    c.servo == Servo.DEFAULTS && c.freezeAfter == 0
  }

  lemma FollowsOn(c: Config, st: Pairing.Stream, k: nat, T: real, a: real, x: real, s: State, n: nat, end: nat)
    requires Steering(c) && Pairing.InStep(st, s, k + n, end) && k + n < end
    requires Pairing.Close(st, c.tolerance, k + n) && Small(st, k + n)
    requires Follows(st, k, T, a, x, s, n)
    ensures Follows(st, k, T, a, x, Handled(c, s, st.stamp(k + n)), n + 1)
  {
    var l := LoopOf(st, k, T, a, x, n);
    var offset := Offset(PlantOf(st, k, T, a), StampsOf(st, k), n);
    assert offset == st.edge(k + n) - st.stamp(k + n) == Signed(offset);
    assert LoopOf(st, k, T, a, x, n + 1)
      == Fed(Servo.DEFAULTS, PlantOf(st, k, T, a), l, offset as real, st.edge(k + n));
    hide Servo.Step, FedAt;
    assert s.edges[0] == st.edge(k + n);
  }

  lemma {:induction false} FollowsAll(c: Config, st: Pairing.Stream, k: nat, T: real, a: real, x: real, s: State,
                                      n: nat, count: nat, end: nat)
    requires Steering(c) && Pairing.InStep(st, s, k + n, end) && k + n + count <= end
    requires CloseFrom(c, st, k)
    requires Follows(st, k, T, a, x, s, n)
    ensures Follows(st, k, T, a, x, HandledAll(c, s, Pairing.Window(st.stamp, k + n, k + n + count)), n + count)
    decreases count
  {
    hide Follows, Handled, HandledAll, Pairing.Window, Pairing.InStep, Pairing.Close, Small;
    if count == 0 {
      Pairing.NothingHandled(c, st, s, k + n);
    } else {
      assert Pairing.Close(st, c.tolerance, k + n) && Small(st, k + n);
      FollowsOn(c, st, k, T, a, x, s, n, end);
      Pairing.OneInStep(c, st, s, k + n, end);
      Pairing.HandledFirst(c, st, s, k + n, count);
      FollowsAll(c, st, k, T, a, x, Handled(c, s, st.stamp(k + n)), n + 1, count - 1, end);
    }
  }

  // ---- Edges stay within tolerance ----------------------------------------------

  // The tolerance leaves room for the first phase error and for what the drift adds to it
  // in the two seconds of the acquisition window.
  predicate Roomy(c: Config, a: real, x: real) {
    Abs(x) + 2.02 * Abs(a) + 960.0 <= c.tolerance as real <= 90_000_000.0
  }

  lemma OffsetIs(st: Pairing.Stream, k: nat, T: real, a: real, n: nat)
    ensures Offset(PlantOf(st, k, T, a), StampsOf(st, k), n) == st.edge(k + n) - st.stamp(k + n)
  {
  }

  lemma WithinIsClose(c: Config, st: Pairing.Stream, k: nat)
    requires Abs((st.edge(k) as int - st.stamp(k) as int) as real) <= c.tolerance as real <= 90_000_000.0
    ensures Pairing.Close(st, c.tolerance, k) && Small(st, k)
  {
  }

  // Every edge of the steered clock is within tolerance of its timestamp.
  lemma EdgesStayClose(c: Config, st: Pairing.Stream, k: nat, T: real, a: real, x: real)
    returns (locked: nat, m: nat)
    requires SteadyPlant(PlantOf(st, k, T, a)) && Roomy(c, a, x)
    requires Captured(PlantOf(st, k, T, a), x, StampsOf(st, k))
    ensures locked <= WINDOW_EDGES && locked <= m
    ensures CloseFrom(c, st, k)
    ensures forall n: nat :: n >= locked ==> LoopOf(st, k, T, a, x, n).servo.phase == Servo.Tracking
    ensures LockedFrom(PlantOf(st, k, T, a), Start(x), StampsOf(st, k), m)
  {
    var p, crf := PlantOf(st, k, T, a), StampsOf(st, k);
    locked, m := ColdStartLocks(p, x, crf);
    forall i: nat | i >= k
      ensures Pairing.Close(st, c.tolerance, i) && Small(st, i)
    {
      OffsetIs(st, k, T, a, i - k);
      hide Offset, FedAt, LockedFrom;
      SampleWithin(p, x, crf, locked, i - k);
      WithinIsClose(c, st, i);
    }
    forall n: nat | n >= locked
      ensures LoopOf(st, k, T, a, x, n).servo.phase == Servo.Tracking
    {
      assert StaysNear(p, Start(x), crf, locked, n);
    }
  }

  lemma SampleWithin(p: Plant, x: real, crf: nat -> nat, locked: nat, n: nat)
    requires SteadyPlant(p) && Captured(p, x, crf) && 1 < locked <= WINDOW_EDGES
    requires forall i :: 1 <= i < locked ==> Coasts(p, x, crf, i)
    requires Abs(FedAt(Servo.DEFAULTS, p, Start(x), crf, locked).x) <= Abs(x) + 2.02 * Abs(p.a) + 4.0
    requires forall i: nat :: i >= locked ==>
      StaysNear(p, Start(x), crf, locked, i) && AccurateAt(p, Start(x), crf, i)
    ensures Abs(Offset(p, crf, n) as real) <= Abs(x) + 2.02 * Abs(p.a) + 960.0
  {
    assert SampleAt(p, x, crf, n);
    if n == 0 {
      assert FedAt(Servo.DEFAULTS, p, Start(x), crf, 0) == Start(x);
    } else if n < locked {
      assert Coasts(p, x, crf, n);
      hide FedAt;
      CoastedWithin(p, x, n);
    } else {
      assert StaysNear(p, Start(x), crf, locked, n) && AccurateAt(p, Start(x), crf, n);
      hide FedAt;
    }
  }

  // ---- Packets, from the first on --------------------------------------------------

  predicate NoneLost(events: seq<Pairing.Event>) {
    forall i :: 0 <= i < |events| && events[i].Packet? ==> events[i].lost == 0
  }

  // In step with the stream, and the servo and the correction are the loop's.
  predicate Runs(c: Config, st: Pairing.Stream, origin: nat, k: nat, T: real, a: real, x: real, w: Pairing.World) {
    && Pairing.Locked(c, st, origin, w)
    && k <= EdgesOf(c, w.sent)
    && Follows(st, k, T, a, x, w.listener, EdgesOf(c, w.sent) - k)
  }

  lemma EventRuns(c: Config, st: Pairing.Stream, origin: nat, k: nat, T: real, a: real, x: real,
                  w: Pairing.World, e: Pairing.Event)
    requires Steering(c) && c.perPdu > 0 && Runs(c, st, origin, k, T, a, x, w)
    requires Pairing.Enabled(c, w, e) && (e.Packet? ==> e.lost == 0)
    requires forall i: nat :: Pairing.Close(st, c.tolerance, i)
    requires CloseFrom(c, st, k)
    ensures var t := Pairing.Next(c, st, origin, w, e);
      Runs(c, st, origin, k, T, a, x, t) && t.listener.misses == w.listener.misses
  {
    hide Follows, EdgesOf, HandledAll, Pairing.Window, Pairing.Close, Receiver.SeqNum;
    match e
    case Capture =>
      Pairing.CaptureLocked(c, st, origin, w);
      FollowsSame(st, k, T, a, x, w.listener, Pairing.Next(c, st, origin, w, e).listener, EdgesOf(c, w.sent) - k);
    case Packet(lost) =>
      assert Pairing.AllClose(st, c.tolerance, w.captured);
      Pairing.PacketLocked(c, st, origin, w, 0);
      Pairing.NextPacket(c, st, origin, w, 0);
      Pairing.EdgesAdd(c, w.sent, 0);
      FollowsAll(c, st, k, T, a, x, w.listener, EdgesOf(c, w.sent) - k, c.perPdu, w.captured);
  }

  // The queue is no part of the loop.
  lemma FollowsSame(st: Pairing.Stream, k: nat, T: real, a: real, x: real, s: State, t: State, n: nat)
    requires Follows(st, k, T, a, x, s, n)
    requires t == s.(edges := t.edges)
    ensures Follows(st, k, T, a, x, t, n)
  {
  }

  lemma {:induction false} RunsOn(c: Config, st: Pairing.Stream, origin: nat, k: nat, T: real, a: real, x: real,
                                  w: Pairing.World, events: seq<Pairing.Event>)
    requires Steering(c) && c.perPdu > 0 && Runs(c, st, origin, k, T, a, x, w)
    requires Pairing.Runs(c, st, origin, w, events) && NoneLost(events)
    requires forall i: nat :: Pairing.Close(st, c.tolerance, i)
    requires CloseFrom(c, st, k)
    ensures var t := Pairing.After(c, st, origin, w, events);
      Runs(c, st, origin, k, T, a, x, t) && t.listener.misses == w.listener.misses
    decreases |events|
  {
    hide Runs, Pairing.Runs, Pairing.After, Pairing.Next, Pairing.Enabled, Pairing.Close;
    if events == [] {
      Pairing.RunsNone(c, st, origin, w);
    } else {
      Pairing.RunsFirst(c, st, origin, w, events);
      EventRuns(c, st, origin, k, T, a, x, w, events[0]);
      RunsOn(c, st, origin, k, T, a, x, Pairing.Next(c, st, origin, w, events[0]), events[1..]);
    }
  }

  // A listener that waits for its first packet, with everything as created.
  predicate Fresh(st: Pairing.Stream, w: Pairing.World, from: nat) {
    && Pairing.Waits(st, w, from)
    && w.listener.servo == Servo.ZERO && w.listener.applied == [] && !w.listener.frozen
  }

  // The first timestamp received only synchronizes; the loop starts with the next.
  function FirstSample(c: Config, w: Pairing.World, lost: nat): nat {
    EdgesOf(c, w.sent + lost) + 1
  }

  lemma FirstRuns(c: Config, st: Pairing.Stream, origin: nat, w: Pairing.World, from: nat, lost: nat,
                  T: real, a: real, x: real)
    requires Steering(c) && c.perPdu > 0 && Fresh(st, w, from)
    requires Pairing.Findable(c, st, w, from, w.sent + lost)
    requires forall i: nat :: Pairing.Close(st, c.tolerance, i)
    requires CloseFrom(c, st, FirstSample(c, w, lost))
    ensures var t := Pairing.Next(c, st, origin, w, Pairing.Packet(lost));
      Runs(c, st, origin, FirstSample(c, w, lost), T, a, x, t) && t.listener.misses == w.listener.misses
  {
    assert Pairing.AllClose(st, c.tolerance, w.captured);
    Pairing.FirstPacketLocks(c, st, origin, w, from, lost);
    Pairing.FirstNext(c, st, origin, w, lost);
    Pairing.EdgesAdd(c, w.sent + lost, 0);
    hide HandledAll, Pairing.Window, Pairing.Close, Pairing.AllClose, Pairing.Next, EdgesOf, Receiver.SeqNum, Follows,
      Pairing.Pairs, CloseFrom, Pairing.Locked;
    FirstNextFollows(c, st, origin, w, from, lost, T, a, x);
  }

  lemma FirstNextFollows(c: Config, st: Pairing.Stream, origin: nat, w: Pairing.World, from: nat, lost: nat,
                         T: real, a: real, x: real)
    requires Steering(c) && c.perPdu > 0 && Fresh(st, w, from)
    requires Pairing.Findable(c, st, w, from, w.sent + lost)
    requires Pairing.AllClose(st, c.tolerance, w.captured)
    requires CloseFrom(c, st, FirstSample(c, w, lost))
    ensures Follows(st, FirstSample(c, w, lost), T, a, x,
                    Pairing.Next(c, st, origin, w, Pairing.Packet(lost)).listener, c.perPdu - 1)
  {
    Pairing.FirstNext(c, st, origin, w, lost);
    Pairing.EdgesAdd(c, w.sent + lost, 0);
    hide HandledAll, Pairing.Window, Pairing.Close, Pairing.AllClose, Pairing.Next, EdgesOf, Receiver.SeqNum, Follows,
      Pairing.Older, CloseFrom;
    FirstFollows(c, st, w.listener, from, EdgesOf(c, w.sent + lost), w.captured, T, a, x);
  }

  // The first packet's timestamps after the one that synchronizes.
  lemma FirstFollows(c: Config, st: Pairing.Stream, s: State, from: nat, first: nat, end: nat,
                     T: real, a: real, x: real)
    requires Steering(c) && c.perPdu > 0 && s.servo == Servo.ZERO && s.applied == [] && !s.frozen
    requires !s.synchronized && s.edges == Pairing.Window(st.edge, from, end)
    requires from <= first && first + c.perPdu <= end
    requires forall i: nat :: from <= i < first ==> Pairing.Older(st, c.tolerance, i, first)
    requires Pairing.AllClose(st, c.tolerance, end) && CloseFrom(c, st, first + 1)
    ensures Follows(st, first + 1, T, a, x, HandledAll(c, s, Pairing.Window(st.stamp, first, first + c.perPdu)),
                    c.perPdu - 1)
  {
    hide HandledAll, Pairing.Window, Pairing.Close, Pairing.Older, Pairing.AllClose, Follows;
    Pairing.SearchHandled(c, st, s, from, first, end);
    Pairing.HandledFirst(c, st, s, first, c.perPdu);
    var found := s.(edges := Pairing.Window(st.edge, first + 1, end), synchronized := true);
    FollowsFromZero(st, first + 1, T, a, x, found);
    FollowsAll(c, st, first + 1, T, a, x, found, 0, c.perPdu - 1, end);
  }

  lemma FollowsFromZero(st: Pairing.Stream, k: nat, T: real, a: real, x: real, s: State)
    requires s.servo == Servo.ZERO && s.applied == [] && !s.frozen
    ensures Follows(st, k, T, a, x, s, 0)
  {
  }

  // From its first packet on, on the edges of the clock it steers and with no packet lost
  // after the first: the listener never misses an edge, its servo is the loop's, tracks
  // from sample `locked` on, and from sample m on has the edges within half a microsecond
  // of their timestamps for good.
  lemma ListenerLocks(c: Config, st: Pairing.Stream, origin: nat, w: Pairing.World, from: nat,
                      events: seq<Pairing.Event>, T: real, a: real, x: real)
    returns (locked: nat, m: nat)
    requires Steering(c) && c.perPdu > 0 && Fresh(st, w, from)
    requires events != [] && events[0].Packet? && NoneLost(events[1..])
    requires Pairing.Runs(c, st, origin, w, events)
    requires Pairing.Findable(c, st, w, from, w.sent + events[0].lost)
    requires var k := FirstSample(c, w, events[0].lost);
      && SteadyPlant(PlantOf(st, k, T, a)) && Roomy(c, a, x)
      && Captured(PlantOf(st, k, T, a), x, StampsOf(st, k))
      && forall i: nat :: i < k ==> Pairing.Close(st, c.tolerance, i)
    ensures locked <= WINDOW_EDGES && locked <= m
    ensures var k := FirstSample(c, w, events[0].lost);
      var t := Pairing.After(c, st, origin, w, events);
      && Runs(c, st, origin, k, T, a, x, t)
      && t.listener.misses == w.listener.misses
      && (EdgesOf(c, t.sent) - k >= locked ==> t.listener.servo.phase == Servo.Tracking)
      && LockedFrom(PlantOf(st, k, T, a), Start(x), StampsOf(st, k), m)
      && forall i: nat :: i >= k + m ==> Abs((st.edge(i) as int - st.stamp(i) as int) as real) <= 500.0
  {
    var k := FirstSample(c, w, events[0].lost);
    locked, m := EdgesStayClose(c, st, k, T, a, x);
    assert forall i: nat :: Pairing.Close(st, c.tolerance, i);
    Pairing.RunsFirst(c, st, origin, w, events);
    FirstRuns(c, st, origin, w, from, events[0].lost, T, a, x);
    hide Runs, Pairing.Runs, Pairing.After, Pairing.Next, Pairing.Enabled, Pairing.Close, Fresh, Pairing.Findable,
      Roomy, LockedFrom, EdgesOf;
    RunsOn(c, st, origin, k, T, a, x, Pairing.Next(c, st, origin, w, events[0]), events[1..]);
    var t := Pairing.After(c, st, origin, w, events);
    ServoIs(c, st, origin, k, T, a, x, t);
    EdgesStayInWindow(st, k, T, a, x, m);
  }

  lemma ServoIs(c: Config, st: Pairing.Stream, origin: nat, k: nat, T: real, a: real, x: real, w: Pairing.World)
    requires Runs(c, st, origin, k, T, a, x, w)
    ensures EdgesOf(c, w.sent) >= k
    ensures w.listener.servo == LoopOf(st, k, T, a, x, EdgesOf(c, w.sent) - k).servo
  {
  }

  lemma EdgesStayInWindow(st: Pairing.Stream, k: nat, T: real, a: real, x: real, m: nat)
    requires LockedFrom(PlantOf(st, k, T, a), Start(x), StampsOf(st, k), m)
    ensures forall i: nat :: i >= k + m ==> Abs((st.edge(i) as int - st.stamp(i) as int) as real) <= 500.0
  {
    forall i: nat | i >= k + m
      ensures Abs((st.edge(i) as int - st.stamp(i) as int) as real) <= 500.0
    {
      assert LockedAt(PlantOf(st, k, T, a), Start(x), StampsOf(st, k), m, i - k);
      OffsetIs(st, k, T, a, i - k);
      hide Offset, FedAt, LockedFrom;
    }
  }
}
