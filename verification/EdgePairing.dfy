/**
 The 1:1 pairing of edges and timestamps over whole runs.

 Edge k belongs to timestamp k.  Packets are received in order with bursts lost
 between them; the receiver reports each burst modulo 256 and the listener drains
 the edges of as many packets.
 */
module EdgePairing {
  import opened Reals
  import opened Words
  import Servo = PiServo
  import opened EdgeListener
  import Receiver = CrfReceiver

  // The edges and the timestamps of one stream, by index.
  datatype Stream = Stream(edge: nat -> nat, stamp: nat -> nat)

  // The queue holds the edges from, ..., end - 1.
  function Window(f: nat -> nat, from: nat, end: nat): (r: seq<nat>)
    ensures |r| == if from < end then end - from else 0
    decreases end - from
  {
    if from >= end then [] else [f(from)] + Window(f, from + 1, end)
  }

  lemma {:induction false} WindowDrop(f: nat -> nat, from: nat, end: nat, n: nat)
    requires from + n <= end
    ensures Window(f, from, end)[n..] == Window(f, from + n, end)
    decreases n
  {
    if n > 0 {
      var w := Window(f, from, end);
      assert w[n..] == w[1..][n - 1..];
      WindowDrop(f, from + 1, end, n - 1);
    }
  }

  predicate Close(st: Stream, tolerance: nat, k: nat) {
    Magnitude(Signed(st.edge(k) as int - st.stamp(k) as int)) <= tolerance
  }

  predicate AllClose(st: Stream, tolerance: nat, end: nat) {
    forall k: nat :: k < end ==> Close(st, tolerance, k)
  }

  // In step at index k: synchronized, with edges k, ..., end - 1 waiting.
  predicate InStep(st: Stream, s: State, k: nat, end: nat) {
    s.synchronized && k <= end && s.edges == Window(st.edge, k, end)
  }

  function Pairs(st: Stream, from: nat, end: nat): seq<(nat, nat)>
    decreases end - from
  {
    if from >= end then [] else [(st.edge(from), st.stamp(from))] + Pairs(st, from + 1, end)
  }

  // A packet's worth of timestamps in step: every one is paired with its own
  // edge, nothing is missed and the listener is in step at the next index.
  lemma {:induction false} PacketInStep(c: Config, st: Stream, s: State, k: nat, n: nat, end: nat)
    requires InStep(st, s, k, end) && k + n <= end
    requires AllClose(st, c.tolerance, end)
    ensures var t := HandledAll(c, s, Window(st.stamp, k, k + n));
      && InStep(st, t, k + n, end)
      && t.paired == s.paired + Pairs(st, k, k + n)
      && t.misses == s.misses && t.dropped == s.dropped
      && t.updates == s.updates + n
    decreases n
  {
    if n == 0 {
      NothingHandled(c, st, s, k);
      hide InStep;
    } else {
      assert Close(st, c.tolerance, k);
      OneInStep(c, st, s, k, end);
      HandledFirst(c, st, s, k, n);
      PairsFirst(st, k, k + n);
      hide Handled, HandledAll, Window, Pairs, InStep, Close, AllClose;
      PacketInStep(c, st, Handled(c, s, st.stamp(k)), k + 1, n - 1, end);
      Associate(s.paired, [(st.edge(k), st.stamp(k))], Pairs(st, k + 1, k + n));
    }
  }

  lemma NothingHandled(c: Config, st: Stream, s: State, k: nat)
    ensures HandledAll(c, s, Window(st.stamp, k, k)) == s
    ensures Pairs(st, k, k) == [] && s.paired + [] == s.paired
  {
  }

  lemma HandledFirst(c: Config, st: Stream, s: State, k: nat, n: nat)
    requires n > 0
    ensures HandledAll(c, s, Window(st.stamp, k, k + n))
      == HandledAll(c, Handled(c, s, st.stamp(k)), Window(st.stamp, k + 1, k + n))
  {
    assert Window(st.stamp, k, k + n)[1..] == Window(st.stamp, k + 1, k + n);
    hide Handled;
  }

  lemma PairsFirst(st: Stream, from: nat, end: nat)
    requires from < end
    ensures Pairs(st, from, end) == [(st.edge(from), st.stamp(from))] + Pairs(st, from + 1, end)
  {
  }

  lemma OneInStep(c: Config, st: Stream, s: State, k: nat, end: nat)
    requires InStep(st, s, k, end) && k < end && Close(st, c.tolerance, k)
    ensures var t := Handled(c, s, st.stamp(k));
      && InStep(st, t, k + 1, end)
      && t.paired == s.paired + [(st.edge(k), st.stamp(k))]
      && t.misses == s.misses && t.dropped == s.dropped
      && t.updates == s.updates + 1
  {
  }

  // Draining after a burst of lost packets, with all their edges captured: the
  // edge at the head is that of the next packet's first timestamp if and only if
  // the burst was shorter than 256 packets.  Longer ones leave the edges of the
  // packets that the 8-bit gap cannot count.
  lemma DrainIff(c: Config, st: Stream, s: State, k: nat, lost: nat, end: nat)
    requires InStep(st, s, k, end) && k + EdgesOf(c, lost) <= end
    requires c.perPdu > 0
    ensures var t := AfterDrop(c, s, lost % 256);
      && (InStep(st, t, k + EdgesOf(c, lost), end) <==> lost < 256)
      && EdgesOf(c, lost % 256) <= EdgesOf(c, lost)
      && InStep(st, t, k + EdgesOf(c, lost % 256), end)
      && t.paired == s.paired && t.misses == s.misses && t.updates == s.updates
  {
    Receiver.SmallModulo(lost);
    EdgesMonotone(c, lost % 256, lost);
    hide EdgesOf;
    WindowDrop(st.edge, k, end, EdgesOf(c, lost % 256));
  }

  lemma EdgesMonotone(c: Config, g: nat, n: nat)
    requires g <= n && c.perPdu > 0
    ensures EdgesOf(c, g) <= EdgesOf(c, n)
    ensures EdgesOf(c, g) == EdgesOf(c, n) <==> g == n
  {
  }

  lemma EdgesAdd(c: Config, a: nat, b: nat)
    ensures EdgesOf(c, a + b) == EdgesOf(c, a) + EdgesOf(c, b)
    ensures EdgesOf(c, a + 1) == EdgesOf(c, a) + c.perPdu
    ensures EdgesOf(c, 0) == 0
  {
  }

  // ---- Runs -----------------------------------------------------------------

  // A packet is received after `lost` others were not; or an edge is captured.
  datatype Event = Packet(lost: nat) | Capture

  // Listener, receiver, packets sent and edges captured so far.
  datatype World = World(listener: State, receiver: Receiver.State, sent: nat, captured: nat)

  // A packet arrives once the edges of all its timestamps have been captured.
  predicate Enabled(c: Config, w: World, e: Event) {
    match e
    case Packet(lost) => EdgesOf(c, w.sent + lost + 1) <= w.captured
    case Capture => true
  }

  function Next(c: Config, st: Stream, origin: nat, w: World, e: Event): World {
    match e
    case Capture =>
      w.(listener := w.listener.(edges := w.listener.edges + [st.edge(w.captured)]), captured := w.captured + 1)
    case Packet(lost) =>
      var m := w.sent + lost;
      var seqNum := Receiver.SeqNum(origin, m);
      var gap := Receiver.Gap(w.receiver, seqNum);
      var drained := if gap != 0 then AfterDrop(c, w.listener, gap) else w.listener;
      World(HandledAll(c, drained, Window(st.stamp, EdgesOf(c, m), EdgesOf(c, m + 1))),
            Receiver.Receive(w.receiver, seqNum), m + 1, w.captured)
  }

  predicate Runs(c: Config, st: Stream, origin: nat, w: World, events: seq<Event>)
    decreases |events|
  {
    events == [] || (Enabled(c, w, events[0]) && Runs(c, st, origin, Next(c, st, origin, w, events[0]), events[1..]))
  }

  function After(c: Config, st: Stream, origin: nat, w: World, events: seq<Event>): World
    decreases |events|
  {
    if events == [] then w else After(c, st, origin, Next(c, st, origin, w, events[0]), events[1..])
  }

  // The pairs that the received packets of a run should give.
  function ExpectedPairs(c: Config, st: Stream, sent: nat, events: seq<Event>): seq<(nat, nat)>
    decreases |events|
  {
    if events == [] then []
    else match events[0]
      case Capture => ExpectedPairs(c, st, sent, events[1..])
      case Packet(lost) =>
        Pairs(st, EdgesOf(c, sent + lost), EdgesOf(c, sent + lost + 1))
        + ExpectedPairs(c, st, sent + lost + 1, events[1..])
  }

  predicate ShortLosses(events: seq<Event>) {
    forall i :: 0 <= i < |events| && events[i].Packet? ==> events[i].lost < 256
  }

  // Synchronized, in step with the stream, and expecting its next packet.
  predicate Locked(c: Config, st: Stream, origin: nat, w: World) {
    && InStep(st, w.listener, EdgesOf(c, w.sent), w.captured)
    && !w.receiver.first
    && w.receiver.expected == Receiver.SeqNum(origin, w.sent)
  }

  lemma {:induction false} WindowSnoc(f: nat -> nat, from: nat, end: nat)
    requires from <= end
    ensures Window(f, from, end + 1) == Window(f, from, end) + [f(end)]
    decreases end - from
  {
    if from < end {
      WindowSnoc(f, from + 1, end);
    } else {
      assert Window(f, from + 1, end + 1) == [];
    }
  }

  lemma CaptureLocked(c: Config, st: Stream, origin: nat, w: World)
    requires Locked(c, st, origin, w)
    ensures var t := Next(c, st, origin, w, Capture);
      && Locked(c, st, origin, t)
      && t.sent == w.sent
      && t.listener.misses == w.listener.misses && t.listener.paired == w.listener.paired
  {
    WindowSnoc(st.edge, EdgesOf(c, w.sent), w.captured);
  }

  lemma GapOfBurst(s: Receiver.State, origin: nat, sent: nat, lost: nat)
    requires !s.first && s.expected == Receiver.SeqNum(origin, sent) && lost < 256
    ensures Receiver.Gap(s, Receiver.SeqNum(origin, sent + lost)) == lost
    ensures Receiver.Receive(s, Receiver.SeqNum(origin, sent + lost)).expected
      == Receiver.SeqNum(origin, sent + lost + 1)
  {
    Receiver.SeqNumNext(origin, sent + lost);
    Receiver.ModuloDifference(origin + (sent + lost), origin + sent);
    assert origin + (sent + lost) - (origin + sent) == lost;
    Receiver.SmallModulo(lost);
  }

  // After the drain the head of the queue is the edge of the packet's first
  // timestamp.
  lemma DrainedInStep(c: Config, st: Stream, origin: nat, w: World, lost: nat) returns (drained: State)
    requires Locked(c, st, origin, w) && lost < 256 && c.perPdu > 0
    requires EdgesOf(c, w.sent + lost + 1) <= w.captured
    ensures Next(c, st, origin, w, Packet(lost)) ==
      World(HandledAll(c, drained, Window(st.stamp, EdgesOf(c, w.sent + lost), EdgesOf(c, w.sent + lost + 1))),
            Receiver.Receive(w.receiver, Receiver.SeqNum(origin, w.sent + lost)), w.sent + lost + 1, w.captured)
    ensures InStep(st, drained, EdgesOf(c, w.sent + lost), w.captured)
    ensures drained.paired == w.listener.paired && drained.misses == w.listener.misses
  {
    hide Receiver.SeqNum, EdgesOf, HandledAll, Window, Drained, InStep, Next;
    drained := if lost != 0 then AfterDrop(c, w.listener, lost) else w.listener;
    NextPacket(c, st, origin, w, lost);
    EdgesAdd(c, w.sent, lost);
    EdgesAdd(c, w.sent + lost, 0);
    Receiver.SmallModulo(lost);
    DrainIff(c, st, w.listener, EdgesOf(c, w.sent), lost, w.captured);
  }

  // A packet after a short burst, with the gap seen by the receiver spelled out.
  lemma NextPacket(c: Config, st: Stream, origin: nat, w: World, lost: nat)
    requires Locked(c, st, origin, w) && lost < 256
    ensures Next(c, st, origin, w, Packet(lost)) ==
      World(HandledAll(c, if lost != 0 then AfterDrop(c, w.listener, lost) else w.listener,
                       Window(st.stamp, EdgesOf(c, w.sent + lost), EdgesOf(c, w.sent + lost + 1))),
            Receiver.Receive(w.receiver, Receiver.SeqNum(origin, w.sent + lost)), w.sent + lost + 1, w.captured)
  {
    hide Receiver.SeqNum, Receiver.Gap, EdgesOf, HandledAll, Window, AfterDrop, InStep;
    GapOfBurst(w.receiver, origin, w.sent, lost);
  }

  lemma PacketLocked(c: Config, st: Stream, origin: nat, w: World, lost: nat)
    requires Locked(c, st, origin, w) && lost < 256 && c.perPdu > 0
    requires EdgesOf(c, w.sent + lost + 1) <= w.captured
    requires AllClose(st, c.tolerance, w.captured)
    ensures var t := Next(c, st, origin, w, Packet(lost));
      && Locked(c, st, origin, t)
      && t.captured == w.captured && t.sent == w.sent + lost + 1
      && t.listener.misses == w.listener.misses
      && t.listener.paired == w.listener.paired
           + Pairs(st, EdgesOf(c, w.sent + lost), EdgesOf(c, w.sent + lost + 1))
  {
    GapOfBurst(w.receiver, origin, w.sent, lost);
    EdgesAdd(c, w.sent + lost, 0);
    hide Receiver.SeqNum, Receiver.Gap, AllClose, EdgesOf, HandledAll, Window, Pairs, AfterDrop;
    var drained := DrainedInStep(c, st, origin, w, lost);
    hide Next, InStep;
    PacketInStep(c, st, drained, EdgesOf(c, w.sent + lost), c.perPdu, w.captured);
  }

  // Whatever is lost in bursts shorter than 256 packets: the listener stays
  // synchronized without a miss, and samples exactly edge k against timestamp k
  // for the timestamps it received.
  lemma {:induction false} StaysInStep(c: Config, st: Stream, origin: nat, w: World, events: seq<Event>)
    requires Locked(c, st, origin, w) && c.perPdu > 0
    requires Runs(c, st, origin, w, events) && ShortLosses(events)
    requires forall k: nat :: Close(st, c.tolerance, k)
    ensures var t := After(c, st, origin, w, events);
      && Locked(c, st, origin, t)
      && t.listener.misses == w.listener.misses
      && t.listener.paired == w.listener.paired + ExpectedPairs(c, st, w.sent, events)
    decreases |events|
  {
    hide Pairs, Window, EdgesOf, Locked, Next, Runs, After;
    if events == [] {
      RunsNone(c, st, origin, w);
    } else {
      RunsFirst(c, st, origin, w, events);
      ExpectedFirst(c, st, w.sent, events);
      assert ShortLosses(events[1..]);
      hide ExpectedPairs, ShortLosses;
      var next := Next(c, st, origin, w, events[0]);
      match events[0]
      case Capture =>
        CaptureLocked(c, st, origin, w);
        StaysInStep(c, st, origin, next, events[1..]);
      case Packet(lost) =>
        assert AllClose(st, c.tolerance, w.captured);
        PacketLocked(c, st, origin, w, lost);
        StaysInStep(c, st, origin, next, events[1..]);
        Associate(w.listener.paired, Pairs(st, EdgesOf(c, w.sent + lost), EdgesOf(c, w.sent + lost + 1)),
                  ExpectedPairs(c, st, w.sent + lost + 1, events[1..]));
    }
  }

  lemma RunsNone(c: Config, st: Stream, origin: nat, w: World)
    ensures After(c, st, origin, w, []) == w
  {
  }

  lemma RunsFirst(c: Config, st: Stream, origin: nat, w: World, events: seq<Event>)
    requires events != [] && Runs(c, st, origin, w, events)
    ensures Enabled(c, w, events[0])
    ensures Runs(c, st, origin, Next(c, st, origin, w, events[0]), events[1..])
    ensures After(c, st, origin, w, events) == After(c, st, origin, Next(c, st, origin, w, events[0]), events[1..])
  {
  }

  lemma Associate(a: seq<(nat, nat)>, b: seq<(nat, nat)>, d: seq<(nat, nat)>)
    ensures a + (b + d) == (a + b) + d
  {
  }

  lemma ExpectedFirst(c: Config, st: Stream, sent: nat, events: seq<Event>)
    requires events != []
    ensures ExpectedPairs(c, st, sent, events) ==
      match events[0]
      case Capture => ExpectedPairs(c, st, sent, events[1..])
      case Packet(lost) =>
        Pairs(st, EdgesOf(c, sent + lost), EdgesOf(c, sent + lost + 1))
        + ExpectedPairs(c, st, sent + lost + 1, events[1..])
    ensures ShortLosses(events) ==> (events[0].Packet? ==> events[0].lost < 256)
  {
  }

  // ---- Getting and keeping synchronization ----------------------------------

  // Older edges are discarded until the timestamp's own edge, which is consumed:
  // the search puts the listener in step at the next index.
  lemma {:induction false} SearchFindsOwnEdge(st: Stream, tolerance: nat, from: nat, k: nat, end: nat)
    requires from <= k < end
    requires Close(st, tolerance, k)
    requires forall i: nat :: from <= i < k ==> Older(st, tolerance, i, k)
    ensures Searched(Window(st.edge, from, end), st.stamp(k), tolerance)
      == Search(Window(st.edge, k + 1, end), true)
    decreases k - from
  {
    var w := Window(st.edge, from, end);
    assert w[1..] == Window(st.edge, from + 1, end);
    hide Signed;
    if from < k {
      assert Older(st, tolerance, from, k);
      SearchFindsOwnEdge(st, tolerance, from + 1, k, end);
    }
  }

  predicate Older(st: Stream, tolerance: nat, i: nat, k: nat) {
    Signed(st.edge(i) as int - st.stamp(k) as int) < -(tolerance as int)
  }

  // Not synchronized, with edges from, ..., captured - 1 waiting, and no packet yet.
  predicate Waits(st: Stream, w: World, from: nat) {
    && !w.listener.synchronized && w.receiver.first
    && from <= w.captured && w.listener.edges == Window(st.edge, from, w.captured)
  }

  // The first packet's own edges are there, behind older ones.
  ghost predicate Findable(c: Config, st: Stream, w: World, from: nat, m: nat) {
    && from <= EdgesOf(c, m) && EdgesOf(c, m + 1) <= w.captured
    && forall i: nat :: from <= i < EdgesOf(c, m) ==> Older(st, c.tolerance, i, EdgesOf(c, m))
  }

  // The first packet received puts a waiting listener in step: its first timestamp finds
  // its own edge, and all the others are paired.
  lemma FirstPacketLocks(c: Config, st: Stream, origin: nat, w: World, from: nat, lost: nat)
    requires Waits(st, w, from) && c.perPdu > 0
    requires Findable(c, st, w, from, w.sent + lost)
    requires AllClose(st, c.tolerance, w.captured)
    ensures var t := Next(c, st, origin, w, Packet(lost));
      && Locked(c, st, origin, t)
      && t.listener.misses == w.listener.misses
      && t.listener.paired == w.listener.paired
           + Pairs(st, EdgesOf(c, w.sent + lost) + 1, EdgesOf(c, w.sent + lost + 1))
  {
    EdgesAdd(c, w.sent + lost, 0);
    FirstNext(c, st, origin, w, lost);
    hide Receiver.SeqNum, EdgesOf, Window, Pairs, HandledAll, AllClose, Next, InStep;
    SearchPacket(c, st, w.listener, from, EdgesOf(c, w.sent + lost), w.captured);
  }

  // A packet's worth of timestamps for a listener that has to search for the first.
  lemma SearchPacket(c: Config, st: Stream, s: State, from: nat, k: nat, end: nat)
    requires !s.synchronized && s.edges == Window(st.edge, from, end) && c.perPdu > 0
    requires from <= k && k + c.perPdu <= end
    requires AllClose(st, c.tolerance, end)
    requires forall i: nat :: from <= i < k ==> Older(st, c.tolerance, i, k)
    ensures var t := HandledAll(c, s, Window(st.stamp, k, k + c.perPdu));
      && InStep(st, t, k + c.perPdu, end)
      && t.misses == s.misses
      && t.paired == s.paired + Pairs(st, k + 1, k + c.perPdu)
  {
    SearchHandled(c, st, s, from, k, end);
    HandledFirst(c, st, s, k, c.perPdu);
    var found := s.(edges := Window(st.edge, k + 1, end), synchronized := true);
    assert InStep(st, found, k + 1, end);
    hide Window, Pairs, Handled, HandledAll, AllClose, InStep, Older;
    PacketInStep(c, st, found, k + 1, c.perPdu - 1, end);
  }

  lemma FirstNext(c: Config, st: Stream, origin: nat, w: World, lost: nat)
    requires w.receiver.first
    ensures var m := w.sent + lost;
      var t := Next(c, st, origin, w, Packet(lost));
      && t.listener == HandledAll(c, w.listener, Window(st.stamp, EdgesOf(c, m), EdgesOf(c, m + 1)))
      && t.sent == m + 1 && t.captured == w.captured
      && !t.receiver.first && t.receiver.expected == Receiver.SeqNum(origin, m + 1)
  {
    Receiver.SeqNumNext(origin, w.sent + lost);
    hide Receiver.SeqNum, EdgesOf, HandledAll, Window;
  }

  lemma SearchHandled(c: Config, st: Stream, s: State, from: nat, k: nat, end: nat)
    requires !s.synchronized && s.edges == Window(st.edge, from, end) && from <= k < end
    requires AllClose(st, c.tolerance, end)
    requires forall i: nat :: from <= i < k ==> Older(st, c.tolerance, i, k)
    ensures Handled(c, s, st.stamp(k)) == s.(edges := Window(st.edge, k + 1, end), synchronized := true)
  {
    assert Close(st, c.tolerance, k);
    SearchFindsOwnEdge(st, c.tolerance, from, k, end);
  }

  // From there on the listener stays in step: starting unsynchronized, whatever is lost
  // in bursts shorter than 256 packets, every timestamp received after the first is
  // sampled against its own edge.
  lemma LocksAndStays(c: Config, st: Stream, origin: nat, w: World, from: nat, events: seq<Event>)
    requires Waits(st, w, from) && c.perPdu > 0
    requires events != [] && events[0].Packet?
    requires Findable(c, st, w, from, w.sent + events[0].lost)
    requires Runs(c, st, origin, w, events) && ShortLosses(events[1..])
    requires forall k: nat :: Close(st, c.tolerance, k)
    ensures var m := w.sent + events[0].lost;
      var t := After(c, st, origin, w, events);
      && Locked(c, st, origin, t)
      && t.listener.misses == w.listener.misses
      && t.listener.paired == w.listener.paired
           + (Pairs(st, EdgesOf(c, m) + 1, EdgesOf(c, m + 1)) + ExpectedPairs(c, st, m + 1, events[1..]))
  {
    var m := w.sent + events[0].lost;
    assert AllClose(st, c.tolerance, w.captured);
    FirstPacketLocks(c, st, origin, w, from, events[0].lost);
    RunsFirst(c, st, origin, w, events);
    var next := Next(c, st, origin, w, events[0]);
    assert next.sent == m + 1;
    hide Next, Locked, Waits, Findable, Pairs, ExpectedPairs, EdgesOf, Runs, After, ShortLosses;
    StaysInStep(c, st, origin, next, events[1..]);
    Associate(w.listener.paired, Pairs(st, EdgesOf(c, m) + 1, EdgesOf(c, m + 1)),
              ExpectedPairs(c, st, m + 1, events[1..]));
  }

  // The servo never sees a phase error beyond the listener's tolerance, so a
  // tolerance within the step threshold makes lock permanent, whatever the edges
  // and timestamps are; and every correction applied is within the clamp.
  predicate Steered(c: Config, s: State) {
    && Servo.Within(c.servo, s.servo)
    && forall i :: 0 <= i < |s.applied| ==> Abs(s.applied[i]) <= c.servo.maxPpb
  }

  predicate BelowStep(c: Config) {
    c.servo.stepThreshold == 0.0 || c.tolerance as real <= c.servo.stepThreshold
  }

  lemma SampledKeeps(c: Config, s: State, edge: nat, ts: nat)
    requires Servo.WellTuned(c.servo) && BelowStep(c)
    requires Magnitude(Signed(edge as int - ts as int)) <= c.tolerance
    requires Steered(c, s)
    ensures Steered(c, Sampled(c, s, edge, ts))
    ensures s.servo.phase == Servo.Tracking ==> Sampled(c, s, edge, ts).servo.phase == Servo.Tracking
  {
    var error := Signed(edge as int - ts as int);
    hide Signed;
    assert Abs(error as real) <= c.tolerance as real;
    assert !Servo.IsStep(c.servo, error as real);
    Servo.StepWithin(c.servo, s.servo, error as real, edge);
    if s.servo.phase == Servo.Tracking {
      Servo.StepDropsLock(c.servo, s.servo, error as real, edge);
    }
    hide Servo.Step;
  }

  lemma {:induction false} PacketKeeps(c: Config, s: State, stamps: seq<nat>)
    requires Servo.WellTuned(c.servo) && BelowStep(c)
    requires Steered(c, s)
    ensures Steered(c, HandledAll(c, s, stamps))
    ensures s.servo.phase == Servo.Tracking ==> HandledAll(c, s, stamps).servo.phase == Servo.Tracking
    decreases |stamps|
  {
    if stamps != [] {
      OneKeeps(c, s, stamps[0]);
      hide Handled, Steered;
      PacketKeeps(c, Handled(c, s, stamps[0]), stamps[1..]);
    }
  }

  lemma OneKeeps(c: Config, s: State, ts: nat)
    requires Servo.WellTuned(c.servo) && BelowStep(c)
    requires Steered(c, s)
    ensures Steered(c, Handled(c, s, ts))
    ensures s.servo.phase == Servo.Tracking ==> Handled(c, s, ts).servo.phase == Servo.Tracking
  {
    hide Signed, Sampled, Searched, Servo.Within;
    if s.synchronized && s.edges != [] && Magnitude(Signed(s.edges[0] as int - ts as int)) <= c.tolerance {
      SampledKeeps(c, s.(edges := s.edges[1..]), s.edges[0], ts);
    }
  }

  // Over every run, with any losses, misses and resynchronizations.
  lemma {:induction false} RunKeepsLock(c: Config, st: Stream, origin: nat, w: World, events: seq<Event>)
    requires Servo.WellTuned(c.servo) && BelowStep(c)
    requires Steered(c, w.listener)
    ensures Steered(c, After(c, st, origin, w, events).listener)
    ensures w.listener.servo.phase == Servo.Tracking
      ==> After(c, st, origin, w, events).listener.servo.phase == Servo.Tracking
    decreases |events|
  {
    if events != [] {
      var next := Next(c, st, origin, w, events[0]);
      NextKeeps(c, st, origin, w, events[0]);
      hide Next, Steered;
      RunKeepsLock(c, st, origin, next, events[1..]);
    }
  }

  lemma NextKeeps(c: Config, st: Stream, origin: nat, w: World, e: Event)
    requires Servo.WellTuned(c.servo) && BelowStep(c)
    requires Steered(c, w.listener)
    ensures Steered(c, Next(c, st, origin, w, e).listener)
    ensures w.listener.servo.phase == Servo.Tracking
      ==> Next(c, st, origin, w, e).listener.servo.phase == Servo.Tracking
  {
    hide HandledAll, Servo.Within, Window, EdgesOf, Drained;
    match e
    case Capture =>
    case Packet(lost) =>
      var gap := Receiver.Gap(w.receiver, Receiver.SeqNum(origin, w.sent + lost));
      var drained := if gap != 0 then AfterDrop(c, w.listener, gap) else w.listener;
      PacketKeeps(c, drained,
        Window(st.stamp, EdgesOf(c, w.sent + lost), EdgesOf(c, w.sent + lost + 1)));
  }

  // The default profile: 300 edges a second, half a period of tolerance, six
  // timestamps to a packet, the default servo.
  const DEFAULT := Config(Servo.DEFAULTS, 1_666_666, 6, 0)

  lemma DefaultIsSafe()
    ensures Servo.WellTuned(DEFAULT.servo) && BelowStep(DEFAULT)
    ensures DEFAULT.tolerance == (1_000_000_000.0 / (2.0 * (48_000.0 / 160.0))).Floor
  {
  }
}
