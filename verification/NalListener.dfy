/**
 The listener that puts the stream back together: NAL units wait in a queue for
 their presentation time, the timer set for the first of them, and are written
 out one at a time.
 */
module NalListener {
  import opened NalStream
  import opened NalTalker

  datatype Entry = Entry(nal: seq<byte>, time: nat)

  datatype Option<T> = None | Some(value: T)

  datatype State = State(queue: seq<Entry>, timer: Option<nat>, written: seq<byte>)

  // A packet with its presentation time arrives, or the timer expires.
  datatype Event = Deliver(packet: Packet, time: nat) | Expire

  // Length of the NAL unit, by the packet's 16-bit data length field.
  function DataLen(p: Packet): nat {
    (p.dataLen - H264_HEADER_LEN) % 0x1_0000
  }

  // What the source needs of a packet: a NAL unit as long as announced, and no
  // longer than the queue entry that it is copied into.
  predicate Wellformed(p: Packet) {
    DataLen(p) <= |p.nal| && DataLen(p) <= DATA_LEN
  }

  predicate Enabled(s: State, e: Event) {
    match e
    case Deliver(packet, time) => Wellformed(packet)
    case Expire => s.queue != []
  }

  function Step(s: State, e: Event): State
    requires Enabled(s, e)
  {
    match e
    case Deliver(packet, time) =>
      var entry := Entry(packet.nal[..DataLen(packet)], time);
      s.(queue := s.queue + [entry], timer := if s.queue == [] then Some(time) else s.timer)
    case Expire =>
      var rest := s.queue[1..];
      s.(queue := rest,
         timer := if rest == [] then None else Some(rest[0].time),
         written := s.written + s.queue[0].nal)
  }

  class Listener {
    var queue: seq<Entry>
    var timer: Option<nat>
    var written: seq<byte>

    function View(): State
      reads this
    {
      State(queue, timer, written)
    }

    constructor ()
      ensures View() == State([], None, [])
    {
      queue, timer, written := [], None, [];
    }

    method ScheduleNal(nal: seq<byte>, len: nat, time: nat)
      requires len <= |nal|
      modifies this`queue, this`timer
      ensures queue == old(queue) + [Entry(nal[..len], time)]
      ensures timer == if old(queue) == [] then Some(time) else old(timer)
    {
      var entry := Entry(nal[..len], time);
      queue := queue + [entry];
      if |queue| == 1 {
        timer := Some(time);
      }
    }

    method NewPacket(p: Packet, time: nat)
      requires Wellformed(p)
      modifies this
      ensures View() == Step(old(View()), Deliver(p, time))
    {
      var len := DataLen(p);
      ScheduleNal(p.nal, len, time);
    }

    method Timeout()
      requires queue != []
      modifies this
      ensures View() == Step(old(View()), Expire)
    {
      var entry := queue[0];
      written := written + entry.nal;
      queue := queue[1..];
      timer := None;
      if queue != [] {
        timer := Some(queue[0].time);
      }
    }
  }

  // ---- Runs -----------------------------------------------------------------

  predicate Runs(s: State, events: seq<Event>)
    decreases |events|
  {
    events == [] || (Enabled(s, events[0]) && Runs(Step(s, events[0]), events[1..]))
  }

  function After(s: State, events: seq<Event>): State
    requires Runs(s, events)
    decreases |events|
  {
    if events == [] then s else After(Step(s, events[0]), events[1..])
  }

  function Delivered(events: seq<Event>): seq<Packet> {
    if events == [] then []
    else (if events[0].Deliver? then [events[0].packet] else []) + Delivered(events[1..])
  }

  function Waiting(queue: seq<Entry>): seq<byte> {
    if queue == [] then [] else queue[0].nal + Waiting(queue[1..])
  }

  lemma {:induction false} WaitingSnoc(queue: seq<Entry>, entry: Entry)
    ensures Waiting(queue + [entry]) == Waiting(queue) + entry.nal
  {
    var q := queue + [entry];
    if queue == [] {
      assert q[1..] == [];
    } else {
      assert q[1..] == queue[1..] + [entry];
      WaitingSnoc(queue[1..], entry);
    }
  }

  function Payload(p: Packet): seq<byte>
    requires Wellformed(p)
  {
    p.nal[..DataLen(p)]
  }

  predicate AllWellformed(packets: seq<Packet>) {
    forall i :: 0 <= i < |packets| ==> Wellformed(packets[i])
  }

  function Payloads(packets: seq<Packet>): seq<byte>
    requires AllWellformed(packets)
  {
    if packets == [] then [] else Payload(packets[0]) + Payloads(packets[1..])
  }

  // The timer stands for the head of the queue.
  predicate Armed(s: State) {
    s.timer == if s.queue == [] then None else Some(s.queue[0].time)
  }

  // Bytes written and bytes waiting, in order.
  function Bytes(s: State): seq<byte> {
    s.written + Waiting(s.queue)
  }

  function Brings(e: Event): seq<byte>
    requires e.Deliver? ==> Wellformed(e.packet)
  {
    if e.Deliver? then Payload(e.packet) else []
  }

  lemma StepBytes(s: State, e: Event)
    requires Enabled(s, e) && Armed(s)
    ensures Armed(Step(s, e))
    ensures Bytes(Step(s, e)) == Bytes(s) + Brings(e)
  {
    match e
    case Deliver(packet, time) =>
      WaitingSnoc(s.queue, Entry(Payload(packet), time));
    case Expire =>
  }

  lemma DeliveredFirst(e: Event, events: seq<Event>)
    requires e.Deliver? ==> Wellformed(e.packet)
    requires AllWellformed(Delivered(events))
    ensures AllWellformed(Delivered([e] + events))
    ensures Payloads(Delivered([e] + events)) == Brings(e) + Payloads(Delivered(events))
  {
    hide Wellformed, Payload, DataLen;
    var d := Delivered(events);
    assert ([e] + events)[1..] == events;
    if e.Deliver? {
      assert ([e.packet] + d)[1..] == d;
    } else {
      assert [] + d == d;
    }
  }

  // However deliveries and expiries interleave, what has been written and what
  // waits are together exactly the payloads delivered, in order; and the timer
  // always stands for the next one.
  lemma {:induction false} InOrder(s: State, events: seq<Event>)
    requires Runs(s, events) && Armed(s)
    ensures Armed(After(s, events))
    ensures AllWellformed(Delivered(events))
    ensures Bytes(After(s, events)) == Bytes(s) + Payloads(Delivered(events))
    decreases |events|
  {
    if events != [] {
      var e, rest := events[0], events[1..];
      StepBytes(s, e);
      assert [e] + rest == events;
      var next := Step(s, e);
      assert Runs(next, rest) && After(s, events) == After(next, rest);
      hide Step, Armed, Bytes, Brings, Payloads, Delivered, AllWellformed, Wellformed, Enabled, Runs, After;
      InOrder(next, rest);
      DeliveredFirst(e, rest);
      Regroup(Bytes(s), Brings(e), Payloads(Delivered(rest)));
    }
  }

  lemma Regroup(a: seq<byte>, b: seq<byte>, c: seq<byte>)
    ensures (a + b) + c == a + (b + c)
  {
  }

  // The NAL units presented over a run, each as it is written, with the time that the
  // timer was armed for when it expired.
  function Presented(s: State, events: seq<Event>): seq<Entry>
    requires Runs(s, events) && Armed(s)
    decreases |events|
  {
    if events == [] then []
    else
      var next := Step(s, events[0]);
      StepBytes(s, events[0]);
      (if events[0].Expire? then [Entry(next.written[|s.written|..], s.timer.value)] else [])
      + Presented(next, events[1..])
  }

  predicate AllSound(events: seq<Event>) {
    forall i :: 0 <= i < |events| && events[i].Deliver? ==> Wellformed(events[i].packet)
  }

  // Delivered NAL units with the presentation times they were delivered with.
  function Scheduled(events: seq<Event>): seq<Entry>
    requires AllSound(events)
  {
    if events == [] then []
    else
      (match events[0] case Deliver(packet, time) => [Entry(Payload(packet), time)] case Expire => [])
      + Scheduled(events[1..])
  }

  // One event: what it presents and what waits after it are what waited before it and
  // what it brings, in order and each with its own time.
  lemma StepKeepsTimes(s: State, e: Event)
    requires Enabled(s, e) && Armed(s)
    ensures match e
      case Deliver(packet, time) =>
        Step(s, e).written == s.written && Step(s, e).queue == s.queue + [Entry(Payload(packet), time)]
      case Expire =>
        && s.timer.Some?
        && s.written <= Step(s, e).written
        && [Entry(Step(s, e).written[|s.written|..], s.timer.value)] + Step(s, e).queue == s.queue
  {
  }

  lemma {:induction false} RunsAreSound(s: State, events: seq<Event>)
    requires Runs(s, events)
    ensures AllSound(events)
    decreases |events|
  {
    if events != [] {
      RunsAreSound(Step(s, events[0]), events[1..]);
      assert forall i :: 0 < i < |events| ==> events[i] == events[1..][i - 1];
    }
  }

  // Every NAL unit is presented in one piece, in the order of delivery, by the expiry of a
  // timer armed for the very time that it was delivered with.
  lemma {:induction false} PresentedOnTime(s: State, events: seq<Event>)
    requires Runs(s, events) && Armed(s)
    ensures AllSound(events)
    ensures Presented(s, events) + After(s, events).queue == s.queue + Scheduled(events)
    decreases |events|
  {
    RunsAreSound(s, events);
    if events != [] {
      var e, rest := events[0], events[1..];
      var next := Step(s, e);
      StepBytes(s, e);
      StepKeepsTimes(s, e);
      var due := match e case Deliver(_, _) => [] case Expire => [Entry(next.written[|s.written|..], s.timer.value)];
      var came := match e case Deliver(packet, time) => [Entry(Payload(packet), time)] case Expire => [];
      assert due + next.queue == s.queue + came;
      assert Presented(s, events) == due + Presented(next, rest);
      assert Scheduled(events) == came + Scheduled(rest);
      PresentedOnTime(next, rest);
      InTurn(due, Presented(next, rest), After(next, rest).queue);
      InTurn(due, next.queue, Scheduled(rest));
      InTurn(s.queue, came, Scheduled(rest));
    }
  }

  lemma InTurn(a: seq<Entry>, b: seq<Entry>, c: seq<Entry>)
    ensures (a + b) + c == a + (b + c)
  {
  }

  // The payloads of packets made from NAL units are those NAL units.
  lemma {:induction false} PackedPayloads(packets: seq<Packet>, nals: seq<seq<byte>>, first: nat)
    requires Numbered(packets, nals, first) && AllFit(nals)
    ensures AllWellformed(packets) && Payloads(packets) == Flatten(nals)
    decreases |packets|
  {
    if packets != [] {
      assert packets[0] == Packed(nals[0], first);
      assert AllFit(nals[1..]) by {
        forall i | 0 <= i < |nals[1..]|
          ensures |nals[1..][i]| <= DATA_LEN
        {
          assert nals[1..][i] == nals[i + 1];
        }
      }
      assert Numbered(packets[1..], nals[1..], first + 1) by {
        forall i | 0 <= i < |nals[1..]|
          ensures packets[1..][i] == Packed(nals[1..][i], first + 1 + i)
        {
          assert packets[i + 1] == Packed(nals[i + 1], first + (i + 1));
        }
      }
      PackedPayloads(packets[1..], nals[1..], first + 1);
    }
  }

  lemma {:induction false} FittingFlatten(segments: seq<seq<byte>>)
    ensures AllFit(Fitting(segments))
    ensures Flatten(Fitting(segments)) <= Flatten(segments)
  {
    if segments != [] && |segments[0]| <= DATA_LEN {
      var rest := Fitting(segments[1..]);
      FittingFlatten(segments[1..]);
      assert ([segments[0]] + rest)[1..] == rest;
    }
  }

  // End to end: once everything delivered has been presented, the listener has
  // written a prefix of the talker's input from its first start code on; and all of it if
  // the talker ended without error on a separable input.
  lemma EndToEnd(input: seq<byte>, ok: bool, sent: seq<Packet>, events: seq<Event>)
    requires Sends(ok, sent, Reached(input))
    requires Runs(State([], None, []), events) && Delivered(events) == sent
    requires After(State([], None, []), events).queue == []
    ensures var written := After(State([], None, []), events).written;
      && written <= Coded(input)
      && (ok ==> written == Coded(Reached(input)))
      && (ok && Separable(input) ==> written == Coded(input))
  {
    var end := After(State([], None, []), events);
    var reached := Reached(input);
    CodedReached(input);
    InOrder(State([], None, []), events);
    FittingFlatten(Units(reached));
    PackedPayloads(sent, Fitting(Units(reached)), 0);
    SegmentsFlatten(Coded(reached));
    FittingIsAll(Units(reached));
    assert end.written + [] == end.written;
    assert [] + [] + Payloads(sent) == Payloads(sent);
  }
}
