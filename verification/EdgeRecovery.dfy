/**
 Losses of any length.

 A burst of 256 packets or more is reported modulo 256, so the drain leaves edges of lost
 timestamps at the head of the queue and the next timestamp meets an edge that is not its
 own.  That costs one miss and one search, and the listener is in step again with the
 third timestamp: 1:1 pairing comes back by itself after every loss.
 */
module EdgeRecovery {
  import opened Words
  import opened EdgeListener
  import opened EdgePairing
  import Receiver = CrfReceiver

  // The queue holds the edges j, ..., end - 1, whether or not the listener is synchronized.
  predicate Holds(st: Stream, s: State, j: nat, end: nat) {
    j <= end && s.edges == Window(st.edge, j, end)
  }

  // Edges from j on and before k are too old for timestamp k.
  ghost predicate OldBefore(st: Stream, tolerance: nat, j: nat, k: nat) {
    forall i: nat :: j <= i < k ==> Older(st, tolerance, i, k)
  }

  // ---- One timestamp --------------------------------------------------------

  // Out of step: the edge at the head is gone, nothing is sampled, and the listener has to
  // search again.
  lemma OutOfStep(c: Config, st: Stream, s: State, j: nat, k: nat, end: nat)
    requires Holds(st, s, j, end) && s.synchronized && j < k < end
    requires Older(st, c.tolerance, j, k)
    ensures Handled(c, s, st.stamp(k)) ==
      s.(edges := Window(st.edge, j + 1, end), synchronized := false, misses := s.misses + 1)
  {
    hide Signed, Sampled;
    WindowDrop(st.edge, j, end, 1);
  }

  // Searching: whatever edges are left over, the timestamp finds its own.
  lemma FindsOwn(c: Config, st: Stream, s: State, j: nat, k: nat, end: nat)
    requires Holds(st, s, j, end) && !s.synchronized && j <= k < end
    requires Close(st, c.tolerance, k) && OldBefore(st, c.tolerance, j, k)
    ensures Handled(c, s, st.stamp(k)) == s.(edges := Window(st.edge, k + 1, end), synchronized := true)
  {
    SearchFindsOwnEdge(st, c.tolerance, j, k, end);
  }

  // ---- Consecutive timestamps -----------------------------------------------

  // Timestamps taken up by a miss and a search before pairing goes on.
  function Skipped(s: State, j: nat, k: nat): nat {
    if !s.synchronized then 1 else if j < k then 2 else 0
  }

  // Two or more timestamps in a row put a listener in step from wherever it is behind;
  // from the third on at the latest each is paired with its own edge.
  lemma {:induction false} Recovers(c: Config, st: Stream, s: State, j: nat, k: nat, n: nat, end: nat)
    requires Holds(st, s, j, end) && j <= k && n >= 2 && k + n <= end
    requires AllClose(st, c.tolerance, end)
    requires OldBefore(st, c.tolerance, j, k) && OldBefore(st, c.tolerance, j, k + 1)
    ensures var t := HandledAll(c, s, Window(st.stamp, k, k + n));
      && InStep(st, t, k + n, end)
      && t.misses == s.misses + (if s.synchronized && j < k then 1 else 0)
      && t.paired == s.paired + Pairs(st, k + Skipped(s, j, k), k + n)
  {
    hide Handled, HandledAll, Window, Pairs, Older, Close;
    if s.synchronized && j == k {
      PacketInStep(c, st, s, k, n, end);
    } else {
      HandledFirst(c, st, s, k, n);
      assert Close(st, c.tolerance, k) && Close(st, c.tolerance, k + 1);
      var t := Handled(c, s, st.stamp(k));
      if s.synchronized {
        assert Older(st, c.tolerance, j, k);
        OutOfStep(c, st, s, j, k, end);
        HandledFirst(c, st, t, k + 1, n - 1);
        FindsOwn(c, st, t, j + 1, k + 1, end);
        PacketInStep(c, st, Handled(c, t, st.stamp(k + 1)), k + 2, n - 2, end);
      } else {
        FindsOwn(c, st, s, j, k, end);
        PacketInStep(c, st, t, k + 1, n - 1, end);
      }
    }
  }

  // ---- One packet after a burst of any length -------------------------------

  lemma GapOfAny(s: Receiver.State, origin: nat, sent: nat, lost: nat)
    requires !s.first && s.expected == Receiver.SeqNum(origin, sent)
    ensures Receiver.Gap(s, Receiver.SeqNum(origin, sent + lost)) == lost % 256
    ensures !Receiver.Receive(s, Receiver.SeqNum(origin, sent + lost)).first
    ensures Receiver.Receive(s, Receiver.SeqNum(origin, sent + lost)).expected
      == Receiver.SeqNum(origin, sent + lost + 1)
  {
    Receiver.SeqNumNext(origin, sent + lost);
    Receiver.ModuloDifference(origin + (sent + lost), origin + sent);
    assert origin + (sent + lost) - (origin + sent) == lost;
  }

  // The edges left after the drain are too old for the packet's first two timestamps.
  ghost predicate Separates(c: Config, st: Stream, w: World, lost: nat) {
    && OldBefore(st, c.tolerance, EdgesOf(c, w.sent), EdgesOf(c, w.sent + lost))
    && OldBefore(st, c.tolerance, EdgesOf(c, w.sent), EdgesOf(c, w.sent + lost) + 1)
  }

  lemma Remainder(lost: nat)
    ensures lost % 256 <= lost
    ensures lost % 256 == lost <==> lost < 256
  {
  }

  function AfterGap(c: Config, s: State, lost: nat): State {
    if lost % 256 != 0 then AfterDrop(c, s, lost % 256) else s
  }

  // What the drain leaves: up to the packet's own edges for a short burst, and some of the
  // edges before them otherwise.
  lemma DrainLeaves(c: Config, st: Stream, s: State, j: nat, lost: nat, end: nat)
    requires InStep(st, s, j, end) && j + EdgesOf(c, lost) <= end && c.perPdu > 0
    ensures var t := AfterGap(c, s, lost);
      var head := j + EdgesOf(c, lost % 256);
      && Holds(st, t, head, end) && t.synchronized
      && head <= j + EdgesOf(c, lost) && (head == j + EdgesOf(c, lost) <==> lost < 256)
      && t.misses == s.misses && t.paired == s.paired
  {
    Remainder(lost);
    EdgesAdd(c, 0, 0);
    EdgesMonotone(c, lost % 256, lost);
    hide EdgesOf, Window;
    DrainIff(c, st, s, j, lost, end);
  }

  lemma OldFrom(st: Stream, tolerance: nat, j: nat, head: nat, k: nat)
    requires OldBefore(st, tolerance, j, k) && j <= head
    ensures OldBefore(st, tolerance, head, k)
  {
  }

  // The listener's part: drained by the gap reported, then given the timestamps k, ...,
  // next - 1 of a packet.
  lemma DrainRecovers(c: Config, st: Stream, s: State, j: nat, lost: nat, k: nat, next: nat, end: nat)
    requires InStep(st, s, j, end) && c.perPdu >= 2
    requires k == j + EdgesOf(c, lost) && next == k + c.perPdu && next <= end
    requires AllClose(st, c.tolerance, end)
    requires OldBefore(st, c.tolerance, j, k) && OldBefore(st, c.tolerance, j, k + 1)
    ensures var t := HandledAll(c, AfterGap(c, s, lost), Window(st.stamp, k, next));
      && InStep(st, t, next, end)
      && t.misses == s.misses + (if lost < 256 then 0 else 1)
      && t.paired == s.paired + Pairs(st, if lost < 256 then k else k + 2, next)
  {
    var head := j + EdgesOf(c, lost % 256);
    DrainLeaves(c, st, s, j, lost, end);
    hide EdgesOf, Window, Pairs, HandledAll, AllClose, OldBefore, AfterGap, Holds, InStep;
    OldFrom(st, c.tolerance, j, head, k);
    OldFrom(st, c.tolerance, j, head, k + 1);
    Recovers(c, st, AfterGap(c, s, lost), head, k, c.perPdu, end);
  }

  // A packet after any burst, with the gap seen by the receiver spelled out.
  lemma NextAny(c: Config, st: Stream, origin: nat, w: World, lost: nat)
    requires Locked(c, st, origin, w)
    ensures var t := Next(c, st, origin, w, Packet(lost));
      && t.listener == HandledAll(c, AfterGap(c, w.listener, lost),
                                  Window(st.stamp, EdgesOf(c, w.sent + lost), EdgesOf(c, w.sent + lost + 1)))
      && t.sent == w.sent + lost + 1 && t.captured == w.captured
      && !t.receiver.first && t.receiver.expected == Receiver.SeqNum(origin, w.sent + lost + 1)
  {
    GapOfAny(w.receiver, origin, w.sent, lost);
    hide EdgesOf, HandledAll, Window, AfterDrop, InStep, Receiver.SeqNum, Receiver.Gap;
  }

  lemma ListenerRecovers(c: Config, st: Stream, origin: nat, w: World, lost: nat)
    requires Locked(c, st, origin, w) && c.perPdu >= 2
    requires EdgesOf(c, w.sent + lost + 1) <= w.captured
    requires AllClose(st, c.tolerance, w.captured) && Separates(c, st, w, lost)
    ensures var k := EdgesOf(c, w.sent + lost);
      var t := HandledAll(c, AfterGap(c, w.listener, lost), Window(st.stamp, k, EdgesOf(c, w.sent + lost + 1)));
      && InStep(st, t, EdgesOf(c, w.sent + lost + 1), w.captured)
      && t.misses == w.listener.misses + (if lost < 256 then 0 else 1)
      && t.paired == w.listener.paired
           + Pairs(st, if lost < 256 then k else k + 2, EdgesOf(c, w.sent + lost + 1))
  {
    EdgesAdd(c, w.sent, lost);
    EdgesAdd(c, w.sent + lost, 0);
    hide EdgesOf, Window, Pairs, HandledAll, AllClose, OldBefore, AfterGap, InStep, Receiver.SeqNum;
    DrainRecovers(c, st, w.listener, EdgesOf(c, w.sent), lost, EdgesOf(c, w.sent + lost),
                  EdgesOf(c, w.sent + lost + 1), w.captured);
  }

  // Locked before, locked after, whatever was lost in between; a burst too long for its
  // 8-bit gap costs one miss and the first two pairs.
  lemma BurstRecovers(c: Config, st: Stream, origin: nat, w: World, lost: nat)
    requires Locked(c, st, origin, w) && c.perPdu >= 2
    requires EdgesOf(c, w.sent + lost + 1) <= w.captured
    requires AllClose(st, c.tolerance, w.captured) && Separates(c, st, w, lost)
    ensures var t := Next(c, st, origin, w, Packet(lost));
      var k := EdgesOf(c, w.sent + lost);
      && Locked(c, st, origin, t)
      && t.sent == w.sent + lost + 1 && t.captured == w.captured
      && t.listener.misses == w.listener.misses + (if lost < 256 then 0 else 1)
      && t.listener.paired == w.listener.paired
           + Pairs(st, if lost < 256 then k else k + 2, EdgesOf(c, w.sent + lost + 1))
  {
    NextAny(c, st, origin, w, lost);
    hide EdgesOf, Pairs, AllClose, Separates, InStep, Next, HandledAll, Receiver.SeqNum;
    ListenerRecovers(c, st, origin, w, lost);
  }

  // Two timestamps to a packet are needed for that: with one, a long burst leaves the
  // listener searching until the next packet.
  lemma OneStampSearchesOn(c: Config, st: Stream, origin: nat, w: World, lost: nat)
    requires Locked(c, st, origin, w) && c.perPdu == 1 && lost >= 256
    requires EdgesOf(c, w.sent + lost + 1) <= w.captured
    requires AllClose(st, c.tolerance, w.captured) && Separates(c, st, w, lost)
    ensures var t := Next(c, st, origin, w, Packet(lost));
      && !Locked(c, st, origin, t) && !t.listener.synchronized
      && t.listener.misses == w.listener.misses + 1 && t.listener.paired == w.listener.paired
  {
    var s, j, k := w.listener, EdgesOf(c, w.sent), EdgesOf(c, w.sent + lost);
    var head := j + EdgesOf(c, lost % 256);
    NextAny(c, st, origin, w, lost);
    EdgesAdd(c, w.sent, lost);
    EdgesAdd(c, w.sent + lost, 0);
    DrainLeaves(c, st, s, j, lost, w.captured);
    hide EdgesOf, Window, HandledAll, AllClose, Handled, AfterGap, Holds, Next, Receiver.SeqNum, Older;
    var drained := AfterGap(c, s, lost);
    assert Older(st, c.tolerance, head, k);
    HandledFirst(c, st, drained, k, 1);
    OutOfStep(c, st, drained, head, k, w.captured);
    NothingHandled(c, st, Handled(c, drained, st.stamp(k)), k + 1);
  }

  // ---- Runs -----------------------------------------------------------------

  // What the received packets of a run give, long bursts included.
  function RecoveredPairs(c: Config, st: Stream, sent: nat, events: seq<Event>): seq<(nat, nat)>
    decreases |events|
  {
    if events == [] then []
    else match events[0]
      case Capture => RecoveredPairs(c, st, sent, events[1..])
      case Packet(lost) =>
        var k := EdgesOf(c, sent + lost);
        Pairs(st, if lost < 256 then k else k + 2, EdgesOf(c, sent + lost + 1))
        + RecoveredPairs(c, st, sent + lost + 1, events[1..])
  }

  function LongBursts(events: seq<Event>): nat {
    if events == [] then 0
    else (if events[0].Packet? && events[0].lost >= 256 then 1 else 0) + LongBursts(events[1..])
  }

  // Timestamps i and k are far enough apart to tell their edges from one another, and not
  // so far apart that the signed 64-bit difference turns over.
  predicate Spaced(st: Stream, tolerance: nat, i: nat, k: nat) {
    2 * tolerance < st.stamp(k) - st.stamp(i) < U64 / 2 - tolerance
  }

  lemma SpacedIsOlder(st: Stream, tolerance: nat, i: nat, k: nat)
    requires Close(st, tolerance, i) && Spaced(st, tolerance, i, k) && tolerance < U64 / 4
    ensures Older(st, tolerance, i, k)
  {
    var own: int := st.edge(i) as int - st.stamp(i) as int;
    var apart: int := st.stamp(k) as int - st.stamp(i) as int;
    SignedShift(own, apart, tolerance);
    assert st.edge(i) as int - st.stamp(k) as int == own - apart;
  }

  lemma SignedShift(x: int, d: int, bound: nat)
    requires -(bound as int) <= Signed(x) <= bound && 2 * bound < d < U64 / 2 - bound
    ensures Signed(x - d) == Signed(x) - d
  {
    var q := (x - Signed(x)) / U64;
    assert x == U64 * q + Signed(x);
    DivModUnique(x - d, U64, q - 1, U64 + Signed(x) - d);
  }

  // The stream reaches as far as its losses: timestamps up to `reach` apart are spaced.
  ghost predicate Regular(st: Stream, tolerance: nat, reach: nat) {
    forall i: nat, k: nat :: i < k <= i + reach ==> Spaced(st, tolerance, i, k)
  }

  predicate Reached(c: Config, events: seq<Event>, reach: nat) {
    forall i :: 0 <= i < |events| && events[i].Packet? ==> EdgesOf(c, events[i].lost) + 1 <= reach
  }

  lemma RegularSeparates(c: Config, st: Stream, w: World, lost: nat, reach: nat)
    requires forall k: nat :: Close(st, c.tolerance, k)
    requires Regular(st, c.tolerance, reach) && EdgesOf(c, lost) + 1 <= reach && c.tolerance < U64 / 4
    ensures Separates(c, st, w, lost)
  {
    var j, k := EdgesOf(c, w.sent), EdgesOf(c, w.sent + lost);
    EdgesAdd(c, w.sent, lost);
    hide Close, Older, EdgesOf, Spaced;
    forall i: nat | j <= i < k
      ensures Older(st, c.tolerance, i, k)
    {
      SpacedIsOlder(st, c.tolerance, i, k);
    }
    var second := k + 1;
    forall i: nat | j <= i < second
      ensures Older(st, c.tolerance, i, second)
    {
      SpacedIsOlder(st, c.tolerance, i, second);
    }
  }

  // Over every run, whatever is lost: the listener is in step with the stream after every
  // packet, misses exactly one edge for each burst of 256 packets or more, and pairs every
  // other timestamp it receives with its own edge, but for the one it then searches with.
  lemma {:induction false} AlwaysRecovers(c: Config, st: Stream, origin: nat, w: World,
                                          events: seq<Event>, reach: nat)
    requires Locked(c, st, origin, w) && c.perPdu >= 2 && c.tolerance < U64 / 4
    requires Runs(c, st, origin, w, events) && Reached(c, events, reach)
    requires forall k: nat :: Close(st, c.tolerance, k)
    requires Regular(st, c.tolerance, reach)
    ensures var t := After(c, st, origin, w, events);
      && Locked(c, st, origin, t)
      && t.listener.misses == w.listener.misses + LongBursts(events)
      && t.listener.paired == w.listener.paired + RecoveredPairs(c, st, w.sent, events)
    decreases |events|
  {
    hide Pairs, Window, EdgesOf, Locked, Next, Runs, After, Separates, Close, Regular;
    if events == [] {
      RunsNone(c, st, origin, w);
    } else {
      RunsFirst(c, st, origin, w, events);
      assert Reached(c, events[1..], reach);
      var next := Next(c, st, origin, w, events[0]);
      match events[0]
      case Capture =>
        CaptureLocked(c, st, origin, w);
        AlwaysRecovers(c, st, origin, next, events[1..], reach);
      case Packet(lost) =>
        assert AllClose(st, c.tolerance, w.captured);
        RegularSeparates(c, st, w, lost, reach);
        BurstRecovers(c, st, origin, w, lost);
        AlwaysRecovers(c, st, origin, next, events[1..], reach);
        var k := EdgesOf(c, w.sent + lost);
        Associate(w.listener.paired,
                  Pairs(st, if lost < 256 then k else k + 2, EdgesOf(c, w.sent + lost + 1)),
                  RecoveredPairs(c, st, w.sent + lost + 1, events[1..]));
    }
  }

  // The default tolerance is half a period of the default talker, to the nanosecond:
  // timestamps 3333333 ns apart or more are just spaced.
  lemma DefaultIsSpaced(st: Stream, i: nat, k: nat)
    requires st.stamp(k) - st.stamp(i) < U64 / 2 - DEFAULT.tolerance
    ensures st.stamp(k) - st.stamp(i) >= 3_333_333 <==> Spaced(st, DEFAULT.tolerance, i, k)
  {
  }
}
