/**
 The media clock that the CRF listener recovers: a queue of future timestamps
 that freewheels when it runs dry, discards what arrives too late, and is
 searched for the timestamp of an incoming audio packet.
 */
module MediaClock {
  import opened Words

  // One media clock tick per audio packet: 6 samples at 48 kHz, in nanoseconds.
  const PERIOD := 125_000

  // Ticks recovered from the first timestamp of one CRF packet.
  const TICKS_PER_PDU := 160

  datatype State = State(queue: seq<nat>, prev: nat, needLookup: bool)

  datatype Answer = Answer(next: State, ts: nat)

  function Ask(s: State): Answer {
    if s.queue == [] then
      var ts := (s.prev + PERIOD) % U64;
      Answer(s.(prev := ts, needLookup := true), ts)
    else
      Answer(s.(queue := s.queue[1..], prev := s.queue[0]), s.queue[0])
  }

  function Tick(crf: nat, i: nat, mtt: nat): nat {
    (crf + i * PERIOD + mtt) % U64
  }

  // The ticks from the i-th on of a CRF packet that are not late.
  function Recovered(crf: nat, mtt: nat, prev: nat, i: nat): seq<nat>
    decreases TICKS_PER_PDU - i
  {
    if i >= TICKS_PER_PDU then []
    else (if Tick(crf, i, mtt) <= prev then [] else [Tick(crf, i, mtt)]) + Recovered(crf, mtt, prev, i + 1)
  }

  lemma RecoveredFrom(crf: nat, mtt: nat, prev: nat, i: nat)
    ensures i >= TICKS_PER_PDU ==> Recovered(crf, mtt, prev, i) == []
    ensures i < TICKS_PER_PDU && Tick(crf, i, mtt) <= prev ==>
      Recovered(crf, mtt, prev, i) == Recovered(crf, mtt, prev, i + 1)
    ensures i < TICKS_PER_PDU && Tick(crf, i, mtt) > prev ==>
      Recovered(crf, mtt, prev, i) == [Tick(crf, i, mtt)] + Recovered(crf, mtt, prev, i + 1)
  {
    hide Tick;
  }

  lemma InTurn(queue: seq<nat>, ts: nat, tail: seq<nat>)
    ensures queue + ([ts] + tail) == queue + [ts] + tail
    ensures queue + [] == queue
  {
  }

  function Recover(s: State, crf: nat, mtt: nat): State {
    s.(queue := s.queue + Recovered(crf, mtt, s.prev, 0))
  }

  // ---- Searching for a timestamp --------------------------------------------

  // The newest clock value there is: freewheeling counts on from here.
  function LastKnown(s: State): nat {
    if s.queue == [] then s.prev else s.queue[|s.queue| - 1]
  }

  // The state after n questions.
  function AskTimes(s: State, n: nat): State {
    if n == 0 then s else Ask(AskTimes(s, n - 1)).next
  }

  // The answer to the n-th question, counted from one.
  function AnswerAt(s: State, n: nat): nat
    requires n > 0
  {
    Ask(AskTimes(s, n - 1)).ts
  }

  predicate Matches(ts: nat, avtpTime: nat) {
    ts % U32 == avtpTime
  }

  predicate Queued(s: State, avtpTime: nat) {
    exists i :: 0 <= i < |s.queue| && Matches(s.queue[i], avtpTime)
  }

  // The two ways the search can end, both visible before it starts.
  predicate Findable(s: State, avtpTime: nat) {
    Queued(s, avtpTime) || LastKnown(s) % 8 == avtpTime % 8
  }

  // The queue first, then the last known value plus one period at a time.
  function Expected(s: State, n: nat): nat
    requires n > 0
  {
    if n <= |s.queue| then s.queue[n - 1]
    else (LastKnown(s) + (n - |s.queue|) * PERIOD) % U64
  }

  lemma NextTick(x: nat, k: nat)
    ensures ((x + k * PERIOD) % U64 + PERIOD) % U64 == (x + (k + 1) * PERIOD) % U64
  {
    WrapThenAdd(x + k * PERIOD);
  }

  lemma WrapThenAdd(y: nat)
    ensures (y % U64 + PERIOD) % U64 == (y + PERIOD) % U64
  {
    var q := y / U64;
    DivModUnique(y + PERIOD, U64, q + (y % U64 + PERIOD) / U64, (y % U64 + PERIOD) % U64);
  }

  lemma {:induction false} AskTimesIs(s: State, n: nat)
    ensures AskTimes(s, n).queue == if n <= |s.queue| then s.queue[n..] else []
    ensures n > 0 ==> AskTimes(s, n).prev == AnswerAt(s, n) == Expected(s, n)
    ensures AskTimes(s, n).needLookup == (s.needLookup || n > |s.queue|)
  {
    if n > 0 {
      AskTimesIs(s, n - 1);
      var t := AskTimes(s, n - 1);
      if n > |s.queue| + 1 {
        NextTick(LastKnown(s), n - 1 - |s.queue|);
      } else if n == |s.queue| + 1 {
        assert t.prev == LastKnown(s);
      }
    }
  }

  // 125000 is 8 * 15625, and 15625 is invertible modulo 2^29: freewheeling reaches
  // exactly the residues that agree with the starting point modulo 8, the greatest
  // common divisor of the period and 2^32, and it does so within 2^29 ticks.
  const ODD_PART := 15_625
  const STEPS := 0x2000_0000
  const INVERSE := 146_956_601

  lemma InverseTimes(d: nat) returns (m: nat)
    ensures ODD_PART * (d * INVERSE) == d + STEPS * m
  {
    m := d * ((ODD_PART * INVERSE - 1) / STEPS);
    assert ODD_PART * INVERSE == 1 + STEPS * ((ODD_PART * INVERSE - 1) / STEPS);
  }

  // The number of ticks that covers a multiple of eight, up to whole wraps.
  lemma Covers(diff: nat) returns (j: nat, k: int)
    requires diff % 8 == 0
    ensures 1 <= j <= STEPS
    ensures PERIOD * j == diff + U32 * k
  {
    var d := diff / 8;
    var m := InverseTimes(d);
    var total := d * INVERSE;
    var q := total / STEPS;
    j := total - STEPS * q;
    k := m - ODD_PART * q;
    assert ODD_PART * j == d + STEPS * k;
    if j == 0 {
      j, k := STEPS, k + ODD_PART;
    }
  }

  lemma TicksTo(start: nat, target: nat) returns (j: nat)
    requires target < U32 && start % 8 == target % 8
    ensures 1 <= j <= STEPS
    ensures (start + j * PERIOD) % U32 == target
  {
    var diff := (target - start) % U32;
    DifferenceByEight(start, target);
    var k: int;
    j, k := Covers(diff);
    Congruent(start, target, diff, k);
  }

  lemma DifferenceByEight(start: nat, target: nat)
    requires start % 8 == target % 8
    ensures (target - start) % U32 % 8 == 0
  {
  }

  lemma Congruent(start: nat, target: nat, diff: nat, k: int)
    requires target < U32 && diff == (target - start) % U32
    ensures (start + (diff + U32 * k)) % U32 == target
  {
  }

  lemma WrapsAgree(x: nat)
    ensures (x % U64) % U32 == x % U32
  {
  }

  lemma MatchIsFindable(s: State, avtpTime: nat, n: nat)
    requires n > 0 && Matches(AnswerAt(s, n), avtpTime)
    ensures Findable(s, avtpTime)
  {
    AskTimesIs(s, n);
    if n <= |s.queue| {
      assert Matches(s.queue[n - 1], avtpTime);
    } else {
      SameResidue(LastKnown(s), n - |s.queue|);
    }
  }

  lemma SameResidue(start: nat, k: nat)
    ensures (start + k * PERIOD) % U64 % U32 % 8 == start % 8
  {
    WrapsAgree(start + k * PERIOD);
    EighthsAgree(start, ODD_PART * k);
  }

  lemma EighthsAgree(start: nat, m: nat)
    ensures (start + 8 * m) % U32 % 8 == start % 8
  {
    var q := (start + 8 * m) / U32;
    assert (start + 8 * m) % U32 == start + 8 * (m - STEPS * q);
  }

  // The search ends if and only if a queued timestamp matches or the target
  // agrees with the last known clock value modulo 8.
  lemma SearchEndsIff(s: State, avtpTime: nat)
    requires avtpTime < U32
    ensures (exists n: nat :: n > 0 && Matches(AnswerAt(s, n), avtpTime)) <==> Findable(s, avtpTime)
  {
    hide AnswerAt, Matches, Findable;
    if Findable(s, avtpTime) {
      var n := Witness(s, avtpTime);
    }
    if n: nat :| n > 0 && Matches(AnswerAt(s, n), avtpTime) {
      MatchIsFindable(s, avtpTime, n);
    }
  }

  // A question within the bound whose answer matches.
  lemma Witness(s: State, avtpTime: nat) returns (n: nat)
    requires avtpTime < U32 && Findable(s, avtpTime)
    ensures 1 <= n <= |s.queue| + STEPS
    ensures Matches(AnswerAt(s, n), avtpTime)
  {
    if Queued(s, avtpTime) {
      var i :| 0 <= i < |s.queue| && Matches(s.queue[i], avtpTime);
      n := i + 1;
    } else {
      var j := TicksTo(LastKnown(s), avtpTime);
      n := |s.queue| + j;
      WrapsAgree(LastKnown(s) + j * PERIOD);
    }
    AskTimesIs(s, n);
  }

  // ---- The listener's clock as the object it updates ------------------------

  class Clock {
    var queue: seq<nat>
    var prev: nat
    var needLookup: bool
    var aligned: bool
    const roundedMtt: nat

    function View(): State
      reads this
    {
      State(queue, prev, needLookup)
    }

    constructor (mtt: nat)
      ensures View() == State([], 0, true) && !aligned && roundedMtt == mtt
    {
      queue, prev, needLookup, aligned, roundedMtt := [], 0, true, false, mtt;
    }

    method DequeueTs() returns (ts: nat)
      requires queue != []
      modifies this`queue
      ensures [ts] + queue == old(queue)
    {
      ts := queue[0];
      queue := queue[1..];
    }

    method EnqueueTs(ts: nat)
      modifies this`queue
      ensures queue == old(queue) + [ts]
    {
      queue := queue + [ts];
    }

    method GetNext() returns (ts: nat)
      modifies this`queue, this`prev, this`needLookup
      ensures Answer(View(), ts) == Ask(old(View()))
    {
      if queue == [] {
        ts := (prev + PERIOD) % U64;
        needLookup := true;
      } else {
        ts := DequeueTs();
      }
      prev := ts;
    }

    // The first answer that matches, after at most as many questions as there
    // are queued timestamps plus 2^29.
    method Lookup(avtpTime: nat) returns (ts: nat, ghost n: nat)
      requires avtpTime < U32 && Findable(View(), avtpTime)
      modifies this`queue, this`prev, this`needLookup
      ensures 1 <= n <= old(|queue|) + STEPS
      ensures Matches(ts, avtpTime) && ts == AnswerAt(old(View()), n)
      ensures forall k :: 0 < k < n ==> !Matches(AnswerAt(old(View()), k), avtpTime)
      ensures View() == AskTimes(old(View()), n)
    {
      ghost var start := View();
      ghost var last := Witness(start, avtpTime);
      ts := GetNext();
      n := 1;
      while ts % U32 != avtpTime
        invariant 1 <= n <= last
        invariant View() == AskTimes(start, n) && ts == AnswerAt(start, n)
        invariant forall k :: 0 < k < n ==> !Matches(AnswerAt(start, k), avtpTime)
        decreases last - n
      {
        ts := GetNext();
        n := n + 1;
      }
    }

    // Ticks of a CRF packet that are not late go to the back of the queue.
    method RecoverMclk(crf: nat)
      modifies this`queue
      ensures View() == Recover(old(View()), crf, roundedMtt)
    {
      ghost var rest := Recovered(crf, roundedMtt, prev, 0);
      hide Recovered;
      var i := 0;
      while i < TICKS_PER_PDU
        invariant 0 <= i <= TICKS_PER_PDU
        invariant queue + Recovered(crf, roundedMtt, prev, i) == old(queue) + rest
      {
        var ts := (crf + i * PERIOD + roundedMtt) % U64;
        ghost var tail := Recovered(crf, roundedMtt, prev, i + 1);
        RecoveredFrom(crf, roundedMtt, prev, i);
        InTurn(queue, ts, tail);
        if !(ts <= prev) {
          EnqueueTs(ts);
        }
        i := i + 1;
      }
      RecoveredFrom(crf, roundedMtt, prev, i);
      InTurn(queue, 0, []);
    }

    // The first CRF packet of a talker: the earliest tick recovered is taken off the
    // queue to arm the transmit timer, and does not become the previous one.
    method ArmTimer(crf: nat) returns (ts: nat)
      requires Recover(View(), crf, roundedMtt).queue != []
      modifies this`queue
      ensures var c := Recover(old(View()), crf, roundedMtt);
        ts == c.queue[0] && View() == c.(queue := c.queue[1..])
    {
      RecoverMclk(crf);
      ts := DequeueTs();
    }

    // An audio packet: searched for when the clock has freewheeled, `n` questions
    // far, otherwise paired with the next tick.
    method HandleAudio(avtpTime: nat) returns (ghost n: nat)
      requires avtpTime < U32
      requires needLookup ==> Findable(View(), avtpTime)
      modifies this
      ensures var t := old(View());
        if t.needLookup then
          && 1 <= n <= |t.queue| + STEPS
          && Matches(AnswerAt(t, n), avtpTime)
          && (forall k :: 0 < k < n ==> !Matches(AnswerAt(t, k), avtpTime))
          && View() == AskTimes(t, n).(needLookup := false)
          && aligned
        else
          View() == Ask(t).next
      // Aligned is at most 5208 nanoseconds early or late, modulo the wrap of 32 bits.
      ensures aligned <==> exists late :: -5208 <= late <= 5208 && IsLate(prev % U32, late, avtpTime)
    {
      var ts: nat;
      n := 0;
      if needLookup {
        ts, n := Lookup(avtpTime);
        needLookup := false;
      } else {
        ts := GetNext();
      }
      aligned := Aligned(ts % U32, avtpTime);
      AlignedIff(ts % U32, avtpTime);
    }
  }

  // The packet's time is so much after the tick.
  predicate IsLate(mclk: nat, late: int, avtpTime: nat) {
    (mclk + late) % U32 == avtpTime
  }

  lemma AlignedIff(mclk: nat, avtpTime: nat)
    requires mclk < U32 && avtpTime < U32
    ensures Aligned(mclk, avtpTime) <==> exists late :: -5208 <= late <= 5208 && IsLate(mclk, late, avtpTime)
  {
    var offset := (avtpTime - mclk) % U32;
    var signed := if offset < 0x8000_0000 then offset else offset - U32;
    assert IsLate(mclk, signed, avtpTime);
  }

  // A quarter of a sample period either side, on the signed 32-bit difference.
  predicate Aligned(mclk: nat, avtpTime: nat) {
    var offset := (avtpTime - mclk) % U32;
    var signed := if offset < 0x8000_0000 then offset else offset - U32;
    -5208 <= signed <= 5208
  }
}
