/**
 The hardware listener's receive path as a whole: a packet is parsed, counted, its
 gap drained and its timestamps paired with edges.

 On the wire the talker's packets are headers and words; what other talkers send is
 there too.  `TalkerPacketIsEvent` and `TakenIff` show what each of them is to the
 listener, and `TurnsAreEvents` that it runs the event machine of `EdgePairing` on the
 talker's packets alone, so that its theorems hold of packets as they are.
 */
module CrfPipeline {
  import opened BitField
  import opened Header
  import opened ProfileCheck
  import opened Words
  import Profile = CrfProfile
  import Receiver = CrfReceiver
  import Edges = EdgeListener
  import opened EdgePairing
  import Recovery = EdgeRecovery

  // A packet on the wire, with the length the socket reports.
  datatype Wire = Wire(header: Row, data: seq<u64>, len: nat)

  predicate Received(x: Wire) {
    Profile.Shaped(x.header) && Profile.Backed(x.data, x.len)
  }

  // Receiver and listener after one packet.
  datatype Pair = Pair(receiver: Receiver.State, listener: Edges.State)

  function Accept(c: Edges.Config, s: Pair, seqNum: nat, stamps: seq<nat>): Pair {
    var gap := Receiver.Gap(s.receiver, seqNum);
    var drained := if gap != 0 then Edges.AfterDrop(c, s.listener, gap) else s.listener;
    Pair(Receiver.Receive(s.receiver, seqNum), Edges.HandledAll(c, drained, stamps))
  }

  // Whatever is not accepted leaves no trace.
  function Take(c: Edges.Config, p: Profile.Profile, mode: Mode, s: Pair, x: Wire): Pair
    requires Received(x)
  {
    var r := Profile.Parsed(x.header, x.data, x.len, p, mode);
    if r.status.Accepted? then Accept(c, s, r.info.seqNum, r.info.timestamps) else s
  }

  lemma SeqNumIsByte(h: Row)
    requires Profile.Shaped(h)
    ensures Profile.Read(h, Profile.SeqNum) < 256
  {
    hide GetValue, Value;
    var place := Profile.Layout(Profile.SeqNum).place;
    GetIsSlice(h[0], place);
    ValueIsBelow(h[0][place.shift..place.shift + place.len]);
    FieldWidths();
  }

  lemma AcceptedSeqNum(p: Profile.Profile, mode: Mode, x: Wire)
    requires Received(x)
    ensures var r := Profile.Parsed(x.header, x.data, x.len, p, mode);
            r.status.Accepted? ==> r.info.seqNum < 256
  {
    hide Profile.Read;
    SeqNumIsByte(x.header);
  }

  // A gap that is reported is the difference of the two sequence numbers.
  lemma GapIs(s: Receiver.State, seqNum: nat)
    ensures Receiver.Gap(s, seqNum) != 0 ==> Receiver.Gap(s, seqNum) == (seqNum - s.expected) % 256
  {
  }

  method Process(pdu: Profile.Pdu, len: nat, p: Profile.Profile, mode: Mode,
                 out: Report<Profile.Info>, rx: Receiver.Receiver, listener: Edges.Listener)
    requires Received(Wire(pdu.header, pdu.data, len))
    requires rx.Valid() && listener.Valid()
    modifies out, rx, listener, listener.servo
    ensures rx.Valid() && listener.Valid()
    ensures Pair(rx.View(), listener.View()) ==
            Take(listener.cfg, p, mode, old(Pair(rx.View(), listener.View())),
                 Wire(pdu.header, pdu.data, len))
  {
    hide Profile.Parsed, Receiver.Gap, Receiver.Receive, Edges.HandledAll, Edges.AfterDrop;
    AcceptedSeqNum(p, mode, Wire(pdu.header, pdu.data, len));
    var status := pdu.Parse(len, p, mode, out);
    if status != Accepted {
      return;
    }
    Deliver(out.info.seqNum, out.info.timestamps, rx, listener);
  }

  // Counting, draining and pairing of an accepted packet.
  method Deliver(seqNum: nat, stamps: seq<nat>, rx: Receiver.Receiver, listener: Edges.Listener)
    requires seqNum < 256
    requires rx.Valid() && listener.Valid()
    modifies rx, listener, listener.servo
    ensures rx.Valid() && listener.Valid()
    ensures Pair(rx.View(), listener.View()) ==
            Accept(listener.cfg, old(Pair(rx.View(), listener.View())), seqNum, stamps)
  {
    hide Receiver.Gap, Receiver.Receive, Edges.HandledAll, Edges.AfterDrop;
    GapIs(rx.View(), seqNum);
    var expected := rx.expectedSeqNum;
    var gap := rx.Process(seqNum);
    if gap != 0 {
      listener.OnDrop(expected, seqNum);
    }
    listener.OnTimestamps(stamps);
  }

  // --- the talker's packets ---------------------------------------------------------

  // What the talker sends: the profile's header with the sequence number put in.
  function TalkerHeader(p: Profile.Profile, seqNum: nat): Row {
    Profile.Write(Profile.Encoded(p), Profile.SeqNum, seqNum)
  }

  lemma TalkerReads(p: Profile.Profile, seqNum: nat, f: Profile.Field)
    requires seqNum < 256
    ensures var h := TalkerHeader(p, seqNum);
            && Profile.Shaped(h)
            && Profile.Read(h, f) == if f == Profile.SeqNum then seqNum else Profile.Read(Profile.Encoded(p), f)
  {
    hide Profile.Read, Profile.Write, Profile.Encoded, Pow2;
    FieldWidths();
    Profile.WriteThenRead(Profile.Encoded(p), Profile.SeqNum, seqNum, f);
  }

  // In either mode the talker's packet is accepted as it was meant.
  lemma TalkerPacketParses(p: Profile.Profile, mode: Mode, seqNum: nat, data: seq<u64>)
    requires Profile.Encodable(p) && seqNum < 256 && |data| == p.timestampsPerPdu
    ensures var h := TalkerHeader(p, seqNum);
            && Profile.Shaped(h)
            && Profile.Parsed(h, data, Profile.PduSize(p), p, mode) ==
               Outcome(Accepted, NoBad, Profile.Info(false, false, seqNum, data))
  {
    hide Profile.Read, Profile.Write, Profile.Encoded, Profile.Parsed, TalkerHeader;
    var h := TalkerHeader(p, seqNum);
    forall f: Profile.Field
      ensures Profile.Shaped(h)
      ensures Profile.Read(h, f) == if f == Profile.SeqNum then seqNum else Profile.Read(Profile.Encoded(p), f)
    {
      TalkerReads(p, seqNum, f);
    }
    TalkerReads(p, seqNum, Profile.SeqNum);
    Profile.EncodedFields(p);
    Profile.StrictAcceptsFor(h, data, Profile.PduSize(p), p);
    Profile.StrictIsCleanLenient(h, data, Profile.PduSize(p), p);
    Profile.AcceptedSignals(h, data, Profile.PduSize(p), p, mode);
    assert data[..p.timestampsPerPdu] == data;
  }

  // Every timestamp fits the 64 bits of its place in the packet.
  ghost predicate Stamped(st: Stream) {
    forall k: nat :: st.stamp(k) < 0x1_0000_0000_0000_0000
  }

  function Data(st: Stream, from: nat, n: nat): (d: seq<u64>)
    requires Stamped(st)
    ensures |d| == n && forall i :: 0 <= i < n ==> d[i] == st.stamp(from + i)
  {
    seq(n, i requires 0 <= i && Stamped(st) => st.stamp(from + i))
  }

  lemma {:induction false} DataIsWindow(st: Stream, from: nat, n: nat)
    requires Stamped(st)
    ensures Data(st, from, n) == Window(st.stamp, from, from + n)
    decreases n
  {
    if n > 0 {
      DataIsWindow(st, from + 1, n - 1);
      assert Data(st, from, n) == [st.stamp(from)] + Data(st, from + 1, n - 1);
    }
  }

  // Index of the first timestamp of the m-th packet.
  function FirstStamp(p: Profile.Profile, m: nat): nat {
    m * p.timestampsPerPdu
  }

  // The m-th packet of the talker on the wire.
  function PacketAt(p: Profile.Profile, st: Stream, origin: nat, m: nat): Wire
    requires Stamped(st)
  {
    Wire(TalkerHeader(p, Receiver.SeqNum(origin, m)),
         Data(st, FirstStamp(p, m), p.timestampsPerPdu),
         Profile.PduSize(p))
  }

  lemma TakeTalker(c: Edges.Config, p: Profile.Profile, mode: Mode, s: Pair, st: Stream, origin: nat, m: nat)
    requires Profile.Encodable(p) && c.perPdu == p.timestampsPerPdu && Stamped(st)
    ensures var x := PacketAt(p, st, origin, m);
            && Received(x)
            && Take(c, p, mode, s, x) ==
               Accept(c, s, Receiver.SeqNum(origin, m),
                      Window(st.stamp, Edges.EdgesOf(c, m), Edges.EdgesOf(c, m + 1)))
  {
    hide TalkerHeader, Accept, Window, Data, Edges.EdgesOf, FirstStamp, Profile.Parsed, Receiver.SeqNum,
      Profile.Encodable;
    var n: nat := p.timestampsPerPdu;
    var seqNum := Receiver.SeqNum(origin, m);
    SeqNumBelow(origin, m);
    FirstStampIs(c, p, m);
    TalkerPacketParses(p, mode, seqNum, Data(st, FirstStamp(p, m), n));
    DataIsWindow(st, FirstStamp(p, m), n);
  }

  lemma SeqNumBelow(origin: nat, m: nat)
    ensures Receiver.SeqNum(origin, m) < 256
  {
  }

  lemma FirstStampIs(c: Edges.Config, p: Profile.Profile, m: nat)
    requires c.perPdu == p.timestampsPerPdu
    ensures FirstStamp(p, m) == Edges.EdgesOf(c, m)
    ensures FirstStamp(p, m) + p.timestampsPerPdu == Edges.EdgesOf(c, m + 1)
  {
  }

  // Receiving it is the packet event of the pairing machine.
  lemma TalkerPacketIsEvent(c: Edges.Config, p: Profile.Profile, mode: Mode, st: Stream, origin: nat,
                            w: World, lost: nat)
    requires Profile.Encodable(p) && c.perPdu == p.timestampsPerPdu && Stamped(st)
    ensures var x := PacketAt(p, st, origin, w.sent + lost);
            var next := Next(c, st, origin, w, Packet(lost));
            && Received(x)
            && Take(c, p, mode, Pair(w.receiver, w.listener), x) == Pair(next.receiver, next.listener)
  {
    hide PacketAt, Take, Received, Receiver.Gap, Receiver.Receive, Receiver.SeqNum;
    hide Edges.HandledAll, Edges.AfterDrop, Window, Edges.EdgesOf;
    TakeTalker(c, p, mode, Pair(w.receiver, w.listener), st, origin, w.sent + lost);
  }

  // --- everybody else's -------------------------------------------------------------

  // A strict listener takes up a packet exactly when it is of the stream and every
  // field is the profile's; otherwise nothing changes.
  lemma TakenIff(c: Edges.Config, p: Profile.Profile, s: Pair, x: Wire)
    requires Received(x)
    ensures Take(c, p, Strict, s, x) != s <==>
            && Profile.Ours(x.header, x.len, p)
            && Profile.Read(x.header, Profile.Version) == 0
            && Profile.Read(x.header, Profile.Sv) == 1
            && Profile.Read(x.header, Profile.Type) == p.kind
            && Profile.Read(x.header, Profile.BaseFreq) == p.baseFreq
            && Profile.Read(x.header, Profile.Fs) == 0
            && Profile.Read(x.header, Profile.Pull) == p.pull
            && Profile.Read(x.header, Profile.TimestampInterval) == p.timestampInterval
            && Profile.Read(x.header, Profile.CrfDataLen) == Profile.DataLen(p)
  {
    hide Profile.Read, Judged, Edges.HandledAll, Edges.AfterDrop, Receiver.Gap;
    if Profile.Ours(x.header, x.len, p) {
      Profile.StrictAcceptsFor(x.header, x.data, x.len, p);
    }
  }

  // --- runs on the wire -------------------------------------------------------------

  // The talker's next packet but `lost`, any packet the listener does not accept, or
  // a captured edge.
  datatype Item = Own(lost: nat) | Foreign(x: Wire) | Edge

  predicate Rejected(p: Profile.Profile, mode: Mode, x: Wire) {
    Received(x) && !Profile.Parsed(x.header, x.data, x.len, p, mode).status.Accepted?
  }

  predicate AllForeignRejected(p: Profile.Profile, mode: Mode, items: seq<Item>) {
    forall i :: 0 <= i < |items| && items[i].Foreign? ==> Rejected(p, mode, items[i].x)
  }

  // The world after one item, by way of the wire.
  function Turn(c: Edges.Config, p: Profile.Profile, mode: Mode, st: Stream, origin: nat, w: World, item: Item): World
    requires Stamped(st) && Profile.Encodable(p) && c.perPdu == p.timestampsPerPdu
    requires item.Foreign? ==> Received(item.x)
  {
    match item
    case Edge => Next(c, st, origin, w, Capture)
    case Foreign(x) =>
      var r := Take(c, p, mode, Pair(w.receiver, w.listener), x);
      w.(receiver := r.receiver, listener := r.listener)
    case Own(lost) =>
      TalkerPacketIsEvent(c, p, mode, st, origin, w, lost);
      var r := Take(c, p, mode, Pair(w.receiver, w.listener), PacketAt(p, st, origin, w.sent + lost));
      World(r.listener, r.receiver, w.sent + lost + 1, w.captured)
  }

  function Turns(c: Edges.Config, p: Profile.Profile, mode: Mode, st: Stream, origin: nat,
                 w: World, items: seq<Item>): World
    requires Stamped(st) && Profile.Encodable(p) && c.perPdu == p.timestampsPerPdu
    requires AllForeignRejected(p, mode, items)
    decreases |items|
  {
    if items == [] then w else Turns(c, p, mode, st, origin, Turn(c, p, mode, st, origin, w, items[0]), items[1..])
  }

  // The events behind the items.
  function Events(items: seq<Item>): seq<Event> {
    if items == [] then []
    else
      (match items[0] case Own(lost) => [Packet(lost)] case Foreign(_) => [] case Edge => [Capture])
      + Events(items[1..])
  }

  lemma TurnIsNext(c: Edges.Config, p: Profile.Profile, mode: Mode, st: Stream, origin: nat, w: World, item: Item)
    requires Stamped(st) && Profile.Encodable(p) && c.perPdu == p.timestampsPerPdu
    requires item.Foreign? ==> Rejected(p, mode, item.x)
    ensures Turn(c, p, mode, st, origin, w, item) ==
            match item
            case Own(lost) => Next(c, st, origin, w, Packet(lost))
            case Foreign(_) => w
            case Edge => Next(c, st, origin, w, Capture)
  {
    hide Profile.Parsed, PacketAt, Accept, Edges.HandledAll, Edges.AfterDrop, Receiver.Gap;
    if item.Own? {
      TalkerPacketIsEvent(c, p, mode, st, origin, w, item.lost);
    }
  }

  // On the wire, through parser, counter and listener, a run is the run of the
  // pairing machine on the talker's packets alone.
  lemma {:induction false} TurnsAreEvents(c: Edges.Config, p: Profile.Profile, mode: Mode, st: Stream,
                                          origin: nat, w: World, items: seq<Item>)
    requires Stamped(st) && Profile.Encodable(p) && c.perPdu == p.timestampsPerPdu
    requires AllForeignRejected(p, mode, items)
    ensures Turns(c, p, mode, st, origin, w, items) == After(c, st, origin, w, Events(items))
    decreases |items|
  {
    hide Turn, Next, Profile.Parsed;
    if items != [] {
      TurnIsNext(c, p, mode, st, origin, w, items[0]);
      TurnsAreEvents(c, p, mode, st, origin, Turn(c, p, mode, st, origin, w, items[0]), items[1..]);
      assert items[0].Foreign? ==> Events(items) == Events(items[1..]);
      assert !items[0].Foreign? ==> Events(items)[1..] == Events(items[1..]);
    }
  }

  // So, whatever else is on the segment and whatever is lost in bursts shorter than
  // 256 packets, a locked listener samples exactly edge k against timestamp k.
  lemma WireStaysInStep(c: Edges.Config, p: Profile.Profile, mode: Mode, st: Stream,
                        origin: nat, w: World, items: seq<Item>)
    requires Stamped(st) && Profile.Encodable(p) && c.perPdu == p.timestampsPerPdu
    requires AllForeignRejected(p, mode, items)
    requires Locked(c, st, origin, w)
    requires Runs(c, st, origin, w, Events(items)) && ShortLosses(Events(items))
    requires forall k: nat :: Close(st, c.tolerance, k)
    ensures var t := Turns(c, p, mode, st, origin, w, items);
            && Locked(c, st, origin, t)
            && t.listener.misses == w.listener.misses
            && t.listener.paired == w.listener.paired + ExpectedPairs(c, st, w.sent, Events(items))
  {
    hide Turns, After, Runs, Locked, ExpectedPairs, ShortLosses;
    TurnsAreEvents(c, p, mode, st, origin, w, items);
    StaysInStep(c, st, origin, w, Events(items));
  }

  // And from a listener that has not synchronized and a receiver that has seen nothing:
  // the talker's first packet to arrive puts them in step.
  lemma WireLocksAndStays(c: Edges.Config, p: Profile.Profile, mode: Mode, st: Stream,
                          origin: nat, w: World, from: nat, items: seq<Item>)
    requires Stamped(st) && Profile.Encodable(p) && c.perPdu == p.timestampsPerPdu
    requires AllForeignRejected(p, mode, items)
    requires Waits(st, w, from)
    requires Events(items) != [] && Events(items)[0].Packet?
    requires Findable(c, st, w, from, w.sent + Events(items)[0].lost)
    requires Runs(c, st, origin, w, Events(items)) && ShortLosses(Events(items)[1..])
    requires forall k: nat :: Close(st, c.tolerance, k)
    ensures var m := w.sent + Events(items)[0].lost;
            var t := Turns(c, p, mode, st, origin, w, items);
            && Locked(c, st, origin, t)
            && t.listener.misses == w.listener.misses
            && t.listener.paired == w.listener.paired
               + (Pairs(st, Edges.EdgesOf(c, m) + 1, Edges.EdgesOf(c, m + 1))
                  + ExpectedPairs(c, st, m + 1, Events(items)[1..]))
  {
    hide Turns, After, Runs, Locked, ExpectedPairs, ShortLosses, Waits, Findable, Pairs;
    TurnsAreEvents(c, p, mode, st, origin, w, items);
    LocksAndStays(c, st, origin, w, from, Events(items));
  }

  // With bursts of any length, on a stream of regular timestamps: the listener is back in
  // step after every packet, at the cost of one miss for each burst of 256 or more.
  lemma WireAlwaysRecovers(c: Edges.Config, p: Profile.Profile, mode: Mode, st: Stream,
                           origin: nat, w: World, items: seq<Item>, reach: nat)
    requires Stamped(st) && Profile.Encodable(p) && c.perPdu == p.timestampsPerPdu
    requires AllForeignRejected(p, mode, items)
    requires Locked(c, st, origin, w) && c.perPdu >= 2 && c.tolerance < U64 / 4
    requires Runs(c, st, origin, w, Events(items)) && Recovery.Reached(c, Events(items), reach)
    requires forall k: nat :: Close(st, c.tolerance, k)
    requires Recovery.Regular(st, c.tolerance, reach)
    ensures var t := Turns(c, p, mode, st, origin, w, items);
            && Locked(c, st, origin, t)
            && t.listener.misses == w.listener.misses + Recovery.LongBursts(Events(items))
            && t.listener.paired == w.listener.paired + Recovery.RecoveredPairs(c, st, w.sent, Events(items))
  {
    hide Turns, After, Runs, Locked, Recovery.RecoveredPairs, Recovery.LongBursts, Recovery.Reached;
    TurnsAreEvents(c, p, mode, st, origin, w, items);
    Recovery.AlwaysRecovers(c, st, origin, w, Events(items), reach);
  }
}
