/**
 The receiver's packet accounting: an 8-bit expected sequence number turned into
 unbounded counts of packets received and packets lost.
 */
module CrfReceiver {

  datatype State = State(expected: nat, first: bool, packets: nat, dropped: nat)

  const FRESH := State(0, true, 0, 0)

  // What an accepted packet tells about packets lost just before it.
  function Gap(s: State, seqNum: nat): nat {
    if s.first then 0 else (seqNum - s.expected) % 256
  }

  function Receive(s: State, seqNum: nat): State {
    State((seqNum + 1) % 256, false, s.packets + 1, s.dropped + Gap(s, seqNum))
  }

  class Receiver {
    var expectedSeqNum: nat
    var firstPacket: bool
    var pktCount: nat
    var dropCount: nat

    ghost predicate Valid()
      reads this
    {
      expectedSeqNum < 256
    }

    function View(): State
      reads this
    {
      State(expectedSeqNum, firstPacket, pktCount, dropCount)
    }

    constructor ()
      ensures Valid() && View() == FRESH
    {
      expectedSeqNum, firstPacket, pktCount, dropCount := 0, true, 0, 0;
    }

    // The gap returned is what the drop callback is told about, if not zero.
    method Process(seqNum: nat) returns (gap: nat)
      requires Valid() && seqNum < 256
      modifies this
      ensures Valid()
      ensures gap == Gap(old(View()), seqNum)
      ensures View() == Receive(old(View()), seqNum)
    {
      gap := 0;
      if !firstPacket {
        gap := (seqNum - expectedSeqNum) % 256;
        if gap != 0 {
          dropCount := dropCount + gap;
        }
      }
      firstPacket := false;
      expectedSeqNum := (seqNum + 1) % 256;
      pktCount := pktCount + 1;
    }
  }

  // ---- Against unbounded packet numbers -------------------------------------

  // The sequence number of the talker's n-th packet.
  function SeqNum(origin: nat, n: nat): nat {
    (origin + n) % 256
  }

  // Packets that arrived, by number, in the order they were sent.
  predicate InOrder(arrived: seq<nat>) {
    forall i, j :: 0 <= i < j < |arrived| ==> arrived[i] < arrived[j]
  }

  function After(origin: nat, arrived: seq<nat>): State
    decreases |arrived|
  {
    if arrived == [] then FRESH
    else Receive(After(origin, arrived[..|arrived| - 1]), SeqNum(origin, arrived[|arrived| - 1]))
  }

  // Packets lost between arrivals i - 1 and i.
  function Burst(arrived: seq<nat>, i: nat): int
    requires 0 < i < |arrived|
  {
    var was: int, now: int := arrived[i - 1], arrived[i];
    now - was - 1
  }

  predicate ShortBursts(arrived: seq<nat>) {
    forall i :: 0 < i < |arrived| ==> Burst(arrived, i) < 256
  }

  // Packets lost between the first and the last arrival.
  function Lost(arrived: seq<nat>): int {
    if arrived == [] then 0 else arrived[|arrived| - 1] - arrived[0] + 1 - |arrived|
  }

  // One arrival after another: the gap is the burst modulo 256.
  lemma GapIsBurst(origin: nat, was: nat, now: nat, s: State)
    requires was < now && !s.first && s.expected == (SeqNum(origin, was) + 1) % 256
    ensures Gap(s, SeqNum(origin, now)) == (now - was - 1) % 256
    ensures Gap(s, SeqNum(origin, now)) <= now - was - 1
    ensures Gap(s, SeqNum(origin, now)) == now - was - 1 <==> now - was - 1 < 256
  {
    SeqNumNext(origin, was);
    SeqNumDifference(origin, was + 1, now);
    hide SeqNum;
    SmallModulo(now - was - 1);
  }

  lemma SeqNumDifference(origin: nat, a: nat, b: nat)
    ensures (SeqNum(origin, b) - SeqNum(origin, a)) % 256 == (b - a) % 256
  {
    ModuloDifference(origin + b, origin + a);
  }

  lemma ModuloDifference(a: nat, b: nat)
    ensures (a % 256 - b % 256) % 256 == (a - b) % 256
  {
  }

  lemma SeqNumNext(origin: nat, n: nat)
    ensures (SeqNum(origin, n) + 1) % 256 == SeqNum(origin, n + 1)
  {
    NextModulo(origin + n);
  }

  lemma NextModulo(x: nat)
    ensures (x % 256 + 1) % 256 == (x + 1) % 256
  {
  }

  lemma SmallModulo(d: nat)
    ensures d % 256 <= d
    ensures d % 256 == d <==> d < 256
  {
  }

  // Over unboundedly many wraps of the 8-bit number: the packet count is exact,
  // the drop count never exceeds the packets lost, and it is exact if and only if
  // every burst of losses is shorter than 256.
  lemma {:induction false} Counts(origin: nat, arrived: seq<nat>)
    requires InOrder(arrived)
    ensures var s := After(origin, arrived);
      && s.packets == |arrived|
      && s.dropped <= Lost(arrived)
      && (s.dropped == Lost(arrived) <==> ShortBursts(arrived))
      && s.first == (arrived == [])
      && (arrived != [] ==> s.expected == (SeqNum(origin, arrived[|arrived| - 1]) + 1) % 256)
    decreases |arrived|
  {
    if arrived != [] {
      var n := |arrived| - 1;
      var before := arrived[..n];
      Counts(origin, before);
      if n > 0 {
        GapIsBurst(origin, arrived[n - 1], arrived[n], After(origin, before));
        LostSnoc(arrived);
        ShortBurstsSnoc(arrived);
        hide SeqNum, Gap, Lost, ShortBursts;
        assert Burst(arrived, n) == arrived[n] - arrived[n - 1] - 1;
      }
    }
  }

  lemma LostSnoc(arrived: seq<nat>)
    requires |arrived| > 1
    ensures Lost(arrived) == Lost(arrived[..|arrived| - 1]) + Burst(arrived, |arrived| - 1)
  {
  }

  lemma ShortBurstsSnoc(arrived: seq<nat>)
    requires |arrived| > 1
    ensures ShortBursts(arrived)
      <==> ShortBursts(arrived[..|arrived| - 1]) && Burst(arrived, |arrived| - 1) < 256
  {
    var before := arrived[..|arrived| - 1];
    assert forall i :: 0 < i < |before| ==> Burst(before, i) == Burst(arrived, i);
  }

  // So with short bursts, received and dropped add up to everything sent between
  // the first and the last arrival.
  lemma Conserved(origin: nat, arrived: seq<nat>)
    requires InOrder(arrived) && arrived != []
    ensures var s := After(origin, arrived);
      s.packets + s.dropped == arrived[|arrived| - 1] - arrived[0] + 1 <==> ShortBursts(arrived)
  {
    Counts(origin, arrived);
  }
}
