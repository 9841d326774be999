/**
 The CRF talker's clock: a seconds and nanoseconds pair advanced by the transmit
 interval, with a carry, and the timestamps put into each packet.
 */
module CrfTalker {
  import opened Times

  const TIMESTAMPS_PER_SEC := 300
  const TIMESTAMPS_PER_PKT := 6
  const PDUS_PER_SEC := TIMESTAMPS_PER_SEC / TIMESTAMPS_PER_PKT
  const TX_INTERVAL := NSEC_PER_SEC / PDUS_PER_SEC
  const CRF_PERIOD := NSEC_PER_SEC / TIMESTAMPS_PER_SEC

  predicate Normal(t: Timespec) {
    t.nsec < NSEC_PER_SEC
  }

  datatype Pdu = Pdu(seqNum: nat, timestamps: seq<nat>)

  // The timestamps of one packet.
  function Stamps(crfTime: nat): seq<nat> {
    seq(TIMESTAMPS_PER_PKT, i requires 0 <= i => crfTime + CRF_PERIOD * i)
  }

  // The clock at the m-th packet, had it been kept in plain nanoseconds.
  function ClockAt(start: nat, m: nat): nat {
    start + m * TX_INTERVAL
  }

  function PduAt(start: nat, mtt: nat, m: nat): Pdu {
    Pdu(m % 256, Stamps(ClockAt(start, m) + mtt))
  }

  lemma ClockNext(start: nat, m: nat)
    ensures ClockAt(start, 0) == start
    ensures ClockAt(start, m + 1) == ClockAt(start, m) + TX_INTERVAL
  {
  }

  // Six of them, a 300th of a second apart in whole nanoseconds.
  method Timestamps(crfTime: nat) returns (data: seq<nat>)
    ensures data == Stamps(crfTime)
    ensures |data| == 6 && forall i :: 0 <= i < 6 ==> data[i] == crfTime + i * 3_333_333
  {
    data := [];
    var idx := 0;
    while idx < TIMESTAMPS_PER_PKT
      invariant 0 <= idx <= TIMESTAMPS_PER_PKT
      invariant |data| == idx
      invariant forall i :: 0 <= i < idx ==> data[i] == crfTime + CRF_PERIOD * i
    {
      data := data + [crfTime + CRF_PERIOD * idx];
      idx := idx + 1;
    }
  }

  method Advance(t: Timespec) returns (next: Timespec)
    requires Normal(t)
    ensures next.nsec < 1_000_000_000 && Nanos(next) == Nanos(t) + TX_INTERVAL
  {
    next := Timespec(t.sec, t.nsec + TX_INTERVAL);
    if next.nsec >= NSEC_PER_SEC {
      next := Timespec(next.sec + 1, next.nsec - NSEC_PER_SEC);
    }
  }

  // Timestamp i of packet m, in nanoseconds.
  predicate StampedAt(sent: seq<Pdu>, m: nat, i: nat, time: nat)
    requires m < |sent|
  {
    i < |sent[m].timestamps| && sent[m].timestamps[i] == time
  }

  lemma StampIs(start: nat, mtt: nat, m: nat, i: nat)
    requires i < 6
    ensures |PduAt(start, mtt, m).timestamps| == 6
    ensures PduAt(start, mtt, m).timestamps[i] == start + mtt + m * 20_000_000 + i * 3_333_333
  {
    assert TX_INTERVAL == 20_000_000 && CRF_PERIOD == 3_333_333;
    assert ClockAt(start, m) == start + m * 20_000_000;
    hide ClockAt;
  }

  lemma StampsAre(sent: seq<Pdu>, start: nat, mtt: nat)
    requires forall m :: 0 <= m < |sent| ==> sent[m] == PduAt(start, mtt, m)
    ensures forall m: nat :: m < |sent| ==> sent[m].seqNum == m % 256 && |sent[m].timestamps| == 6
    ensures forall m: nat, i: nat :: m < |sent| && i < 6 ==>
      StampedAt(sent, m, i, start + mtt + m * 20_000_000 + i * 3_333_333)
  {
    forall m: nat, i: nat | m < |sent| && i < 6
      ensures |sent[m].timestamps| == 6
      ensures StampedAt(sent, m, i, start + mtt + m * 20_000_000 + i * 3_333_333)
    {
      StampIs(start, mtt, m, i);
    }
    hide Stamps;
  }

  // Sending count packets: the carry never loses a nanosecond, so first
  // timestamps are exactly one transmit interval apart for ever.
  method Send(start: Timespec, mtt: nat, count: nat) returns (sent: seq<Pdu>)
    requires Normal(start)
    ensures |sent| == count
    ensures forall m :: 0 <= m < count ==> sent[m] == PduAt(Nanos(start), mtt, m)
    ensures forall m: nat :: m < count ==> sent[m].seqNum == m % 256 && |sent[m].timestamps| == 6
    ensures forall m: nat, i: nat :: m < count && i < 6 ==>
      StampedAt(sent, m, i, Nanos(start) + mtt + m * 20_000_000 + i * 3_333_333)
  {
    var clock := start;
    var seqNum := 0;
    sent := [];
    hide Nanos, Stamps, ClockAt;
    ClockNext(Nanos(start), 0);
    while |sent| < count
      invariant |sent| <= count
      invariant Normal(clock)
      invariant Nanos(clock) == ClockAt(Nanos(start), |sent|)
      invariant seqNum == |sent| % 256
      invariant forall m :: 0 <= m < |sent| ==> sent[m] == PduAt(Nanos(start), mtt, m)
    {
      var data := Timestamps(Nanos(clock) + mtt);
      assert Pdu(seqNum, data) == PduAt(Nanos(start), mtt, |sent|);
      sent := sent + [Pdu(seqNum, data)];
      seqNum := (seqNum + 1) % 256;
      ClockNext(Nanos(start), |sent| - 1);
      clock := Advance(clock);
    }
    StampsAre(sent, Nanos(start), mtt);
  }
}
