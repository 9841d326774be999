/**
 What the hardware listener has done to the clock, as a function of the pairs it sampled.

 Searches, misses, drains and the freezing of the clock are interleaved with samples in
 every way.  Whatever the run, servo and corrections are those of the pairs alone, and the
 corrections end with the pair that freezes the clock.
 */
module EdgeHistory {
  import opened Words
  import Servo = PiServo
  import opened EdgeListener
  import opened EdgePairing
  import Receiver = CrfReceiver

  // A listener as it is created.
  const NEW := State([], false, Servo.ZERO, 0, 0, 0, false, [], [])

  // The servo's answer to one pair.
  function Answered(c: Config, s: Servo.State, pair: (nat, nat)): Servo.Outcome {
    Servo.Step(c.servo, s, Signed(pair.0 - pair.1) as real, pair.0)
  }

  // A new servo given the pairs one after the other.
  function ServoAfter(c: Config, pairs: seq<(nat, nat)>): Servo.State
    decreases |pairs|
  {
    if pairs == [] then Servo.ZERO
    else Answered(c, ServoAfter(c, pairs[..|pairs| - 1]), pairs[|pairs| - 1]).next
  }

  // Its corrections, as far as it reports a lock.
  function Corrections(c: Config, pairs: seq<(nat, nat)>): seq<real>
    decreases |pairs|
  {
    if pairs == [] then []
    else
      var before := pairs[..|pairs| - 1];
      var o := Answered(c, ServoAfter(c, before), pairs[|pairs| - 1]);
      Corrections(c, before) + if o.report == Servo.Unlocked then [] else [o.ppb]
  }

  // How many of n pairs steer the clock.
  function Steering(c: Config, n: nat): nat {
    if c.freezeAfter == 0 || n < c.freezeAfter then n else c.freezeAfter
  }

  predicate InTolerance(c: Config, pairs: seq<(nat, nat)>) {
    forall i :: 0 <= i < |pairs| ==> Within(pairs[i].0, pairs[i].1, c.tolerance)
  }

  ghost predicate Recorded(c: Config, s: State) {
    && InTolerance(c, s.paired)
    && s.updates == |s.paired|
    && s.servo == ServoAfter(c, s.paired)
    && s.applied == Corrections(c, s.paired[..Steering(c, |s.paired|)])
    && (s.frozen <==> c.freezeAfter != 0 && |s.paired| >= c.freezeAfter)
  }

  lemma SampledRecords(c: Config, s: State, edge: nat, ts: nat)
    requires Recorded(c, s) && Within(edge, ts, c.tolerance)
    ensures Recorded(c, Sampled(c, s, edge, ts))
  {
    hide Signed, Servo.Step, Within;
    var t := Sampled(c, s, edge, ts);
    var n := |s.paired|;
    assert t.paired[..n] == s.paired && t.paired[n] == (edge, ts);
    if Steering(c, n + 1) == n + 1 {
      assert t.paired[..n + 1] == t.paired;
      assert s.paired[..n] == s.paired;
    } else {
      assert t.paired[..Steering(c, n + 1)] == s.paired[..Steering(c, n)];
    }
  }

  lemma HandledRecords(c: Config, s: State, ts: nat)
    requires Recorded(c, s)
    ensures Recorded(c, Handled(c, s, ts))
  {
    if s.synchronized && s.edges != [] && Within(s.edges[0], ts, c.tolerance) {
      SampledRecords(c, s.(edges := s.edges[1..]), s.edges[0], ts);
    }
    hide Signed, Sampled, Searched, ServoAfter, Corrections, InTolerance;
  }

  lemma {:induction false} PacketRecords(c: Config, s: State, stamps: seq<nat>)
    requires Recorded(c, s)
    ensures Recorded(c, HandledAll(c, s, stamps))
    decreases |stamps|
  {
    hide Handled, Recorded;
    if stamps != [] {
      HandledRecords(c, s, stamps[0]);
      PacketRecords(c, Handled(c, s, stamps[0]), stamps[1..]);
    }
  }

  // Over every run, with any edges, timestamps and losses at all.
  lemma {:induction false} RunRecords(c: Config, st: Stream, origin: nat, w: World, events: seq<Event>)
    requires Recorded(c, w.listener)
    ensures Recorded(c, After(c, st, origin, w, events).listener)
    decreases |events|
  {
    if events != [] {
      NextRecords(c, st, origin, w, events[0]);
      hide Next, Recorded;
      RunRecords(c, st, origin, Next(c, st, origin, w, events[0]), events[1..]);
    }
  }

  lemma NextRecords(c: Config, st: Stream, origin: nat, w: World, e: Event)
    requires Recorded(c, w.listener)
    ensures Recorded(c, Next(c, st, origin, w, e).listener)
  {
    hide HandledAll, InTolerance, ServoAfter, Corrections, Window, EdgesOf, Drained;
    match e
    case Capture =>
    case Packet(lost) =>
      var gap := Receiver.Gap(w.receiver, Receiver.SeqNum(origin, w.sent + lost));
      var drained := if gap != 0 then AfterDrop(c, w.listener, gap) else w.listener;
      PacketRecords(c, drained, Window(st.stamp, EdgesOf(c, w.sent + lost), EdgesOf(c, w.sent + lost + 1)));
  }

  // From creation: the clock has been given exactly the corrections that a servo of its own
  // computes from the pairs, up to the one that freezes it and none after that.
  lemma ClockHistory(c: Config, st: Stream, origin: nat, events: seq<Event>)
    ensures var s := After(c, st, origin, World(NEW, Receiver.FRESH, 0, 0), events).listener;
      && InTolerance(c, s.paired)
      && s.updates == |s.paired|
      && s.servo == ServoAfter(c, s.paired)
      && s.applied == Corrections(c, s.paired[..Steering(c, |s.paired|)])
      && (s.frozen <==> c.freezeAfter != 0 && |s.paired| >= c.freezeAfter)
  {
    RunRecords(c, st, origin, World(NEW, Receiver.FRESH, 0, 0), events);
  }

  // ---- Counts ---------------------------------------------------------------

  // How many of the timestamps find the listener not synchronized.
  function Searches(c: Config, s: State, stamps: seq<nat>): nat
    decreases |stamps|
  {
    if stamps == [] then 0
    else (if s.synchronized then 0 else 1) + Searches(c, Handled(c, s, stamps[0]), stamps[1..])
  }

  // Every timestamp is sampled, missed, or searched with.
  lemma {:induction false} EveryTimestampCounted(c: Config, s: State, stamps: seq<nat>)
    ensures var t := HandledAll(c, s, stamps);
      (t.updates - s.updates) + (t.misses - s.misses) + Searches(c, s, stamps) == |stamps|
    decreases |stamps|
  {
    if stamps != [] {
      OneCounted(c, s, stamps[0]);
      hide Handled;
      EveryTimestampCounted(c, Handled(c, s, stamps[0]), stamps[1..]);
    }
  }

  // One of them: unless it searches it takes one edge, if there is any, and a queue run dry
  // does not cost the synchronization.
  lemma OneCounted(c: Config, s: State, ts: nat)
    ensures var t := Handled(c, s, ts);
      (t.updates - s.updates) + (t.misses - s.misses) + (if s.synchronized then 0 else 1) == 1
    ensures s.synchronized ==> Handled(c, s, ts).edges == if s.edges == [] then [] else s.edges[1..]
    ensures s.edges == [] ==> Handled(c, s, ts).synchronized == s.synchronized
    ensures Handled(c, s, ts).dropped == s.dropped
  {
    hide Signed, Servo.Step;
  }

  lemma {:induction false} PacketDropsNone(c: Config, s: State, stamps: seq<nat>)
    ensures HandledAll(c, s, stamps).dropped == s.dropped
    decreases |stamps|
  {
    if stamps != [] {
      OneCounted(c, s, stamps[0]);
      hide Handled;
      PacketDropsNone(c, Handled(c, s, stamps[0]), stamps[1..]);
    }
  }

  // The listener's count of lost packets and the receiver's are the same over every run.
  lemma {:induction false} DropCountsAgree(c: Config, st: Stream, origin: nat, w: World, events: seq<Event>)
    ensures var t := After(c, st, origin, w, events);
      t.listener.dropped - w.listener.dropped == t.receiver.dropped - w.receiver.dropped
    decreases |events|
  {
    if events != [] {
      NextDrops(c, st, origin, w, events[0]);
      hide Next;
      DropCountsAgree(c, st, origin, Next(c, st, origin, w, events[0]), events[1..]);
    }
  }

  lemma NextDrops(c: Config, st: Stream, origin: nat, w: World, e: Event)
    ensures var t := Next(c, st, origin, w, e);
      t.listener.dropped - w.listener.dropped == t.receiver.dropped - w.receiver.dropped
  {
    hide HandledAll, Window, EdgesOf, Drained, Receiver.Gap, Receiver.SeqNum;
    match e
    case Capture =>
    case Packet(lost) =>
      var gap := Receiver.Gap(w.receiver, Receiver.SeqNum(origin, w.sent + lost));
      var drained := if gap != 0 then AfterDrop(c, w.listener, gap) else w.listener;
      PacketDropsNone(c, drained, Window(st.stamp, EdgesOf(c, w.sent + lost), EdgesOf(c, w.sent + lost + 1)));
  }
}
