/**
 Presentation times: 64-bit nanoseconds of which a packet carries the lower 32
 bits, put back together by a listener that knows roughly what time it is.
 */
module PresentationTime {
  import opened Times
  import opened Words

  const NSEC_PER_MSEC := 1_000_000
  const HALF := 0x8000_0000

  // The full presentation time of a packet made at `now`; the product is taken
  // in 64 bits, like the sum.
  function PresentAt(now: Timespec, transitMs: nat): nat {
    (Nanos(now) + transitMs * NSEC_PER_MSEC) % U64
  }

  // What the talker puts into the packet.
  function AvtpTime(now: Timespec, transitMs: nat): nat {
    PresentAt(now, transitMs) % U32
  }

  // The upper half of the clock joined to the packet's lower half; the two do not
  // overlap, so the source's `|` is an addition.
  function Rebuilt(avtpTime: nat, now: nat): nat
    requires avtpTime < U32 && now < U64
  {
    var p := now - now % U32 + avtpTime;
    if p < now then (p + U32) % U64 else p
  }

  method GetPresentationTime(avtpTime: nat, clock: Timespec) returns (t: Timespec)
    requires avtpTime < U32 && Nanos(clock) < U64
    ensures Nanos(t) == Rebuilt(avtpTime, Nanos(clock)) && t.nsec < NSEC_PER_SEC
  {
    var now := clock.sec * NSEC_PER_SEC + clock.nsec;
    var ptime := now - now % U32 + avtpTime;
    if ptime < now {
      ptime := (ptime + U32) % U64;
    }
    t := Timespec(ptime / NSEC_PER_SEC, ptime % NSEC_PER_SEC);
  }

  // The audio listener's second look at the clock, and its correction.
  function Corrected(ptime: nat, now: nat): nat
    requires ptime < U64 && now < U64
  {
    var delta := Signed(ptime - now);
    if delta > HALF then (ptime - U32) % U64
    else if delta < -HALF then (ptime + U32) % U64
    else ptime
  }

  // ---- Round trips ----------------------------------------------------------

  // The reconstruction is the one number with the packet's lower half in the span
  // of 2^32 that starts at the clock reading.
  lemma RebuiltRange(avtpTime: nat, now: nat)
    requires avtpTime < U32 && now < U64 - U32
    ensures now <= Rebuilt(avtpTime, now) < now + U32
    ensures Rebuilt(avtpTime, now) % U32 == avtpTime
  {
    var q := now / U32;
    assert now - now % U32 == U32 * q;
    LowHalf(q, avtpTime);
    LowHalf(q + 1, avtpTime);
  }

  lemma LowHalf(q: nat, low: nat)
    requires low < U32
    ensures (U32 * q + low) % U32 == low
  {
  }

  // The first reconstruction is exact if and only if the listener's clock has not
  // passed the presentation time and is less than 2^32 nanoseconds short of it.
  lemma RebuiltIff(ptime: nat, now: nat)
    requires ptime < U64 && now < U64 - U32
    ensures Rebuilt(ptime % U32, now) == ptime <==> now <= ptime < now + U32
  {
    RebuiltRange(ptime % U32, now);
    hide Rebuilt;
    SameResidue(Rebuilt(ptime % U32, now), ptime, now);
  }

  // Within one span of 2^32 the low half determines the number.
  lemma SameResidue(a: nat, b: nat, from: nat)
    requires from <= a < from + U32 && a % U32 == b % U32
    ensures a == b <==> from <= b < from + U32
  {
  }

  // With the second look the reconstruction is exact for late packets as well:
  // whenever the presentation time is within 2^31 of the second reading and the
  // two readings are less than 2^31 apart, in either order.
  lemma CorrectedIsExact(ptime: nat, first: nat, second: nat)
    requires ptime < U64 / 2 - 2 * U32 && first < U64 / 2 - 2 * U32 && second < U64 / 2 - 2 * U32
    requires -HALF < ptime - second <= HALF
    requires -HALF < second - first < HALF
    ensures Corrected(Rebuilt(ptime % U32, first), second) == ptime
  {
    RebuiltRange(ptime % U32, first);
    hide Rebuilt;
    var r := Rebuilt(ptime % U32, first);
    Neighbours(r, ptime, first);
    assert Signed(r - second) == r - second;
  }

  // And only then: with readings less than 2^31 apart, the second look is exact if and
  // only if the presentation time is less than 2^31 past and at most 2^31 ahead.
  lemma CorrectedIff(ptime: nat, first: nat, second: nat)
    requires ptime < U64 / 2 - 2 * U32 && first < U64 / 2 - 2 * U32 && second < U64 / 2 - 2 * U32
    requires -HALF < second - first < HALF
    ensures Corrected(Rebuilt(ptime % U32, first), second) == ptime <==> -HALF < ptime - second <= HALF
  {
    if -HALF < ptime - second <= HALF {
      CorrectedIsExact(ptime, first, second);
    } else {
      RebuiltRange(ptime % U32, first);
      hide Rebuilt;
      CorrectedRange(Rebuilt(ptime % U32, first), first, second);
    }
  }

  // Whatever the packet says, the correction stays around the second reading, unless it
  // goes below zero and wraps to the far end of 64 bits.
  lemma CorrectedRange(r: nat, first: nat, second: nat)
    requires first < U64 / 2 - 2 * U32 && second < U64 / 2 - 2 * U32
    requires -HALF < second - first < HALF && first <= r < first + U32
    ensures var c := Corrected(r, second);
      -HALF < c - second <= HALF || c >= U64 / 2
  {
    assert Signed(r - second) == r - second;
  }

  // An instance: a packet exactly 2^31 late is taken for one 2^31 early.
  lemma HalfSpanLateFails()
    ensures var ptime, now := 10 * U32, 10 * U32 + HALF;
      Corrected(Rebuilt(ptime % U32, now), now) == ptime + U32
  {
  }

  lemma Neighbours(r: nat, ptime: nat, first: nat)
    requires first <= r < first + U32 && r % U32 == ptime % U32
    requires -U32 < ptime - first < U32
    ensures r == ptime || r == ptime + U32
  {
    SameResidue(r, ptime, first);
    if ptime < first {
      ShiftedResidue(ptime);
      SameResidue(r, ptime + U32, first);
    }
  }

  lemma ShiftedResidue(x: nat)
    ensures (x + U32) % U32 == x % U32
  {
  }

  // A listener held up between its readings by 2^31 nanoseconds or more, and up to 2^32
  // beyond that, corrects the other way: the tie at 2^31 then goes to the past.
  lemma CorrectedAfterStall(ptime: nat, first: nat, second: nat)
    requires ptime < U64 / 2 - 2 * U32 && first < U64 / 2 - 2 * U32 && second < U64 / 2 - 2 * U32
    requires HALF <= second - first <= U32 + HALF
    ensures Corrected(Rebuilt(ptime % U32, first), second) == ptime <==> -HALF <= ptime - second < HALF
  {
    RebuiltRange(ptime % U32, first);
    hide Rebuilt;
    var r := Rebuilt(ptime % U32, first);
    assert Signed(r - second) == r - second;
    var c := Corrected(r, second);
    assert c == if r - second < -HALF then r + U32 else r;
    hide Corrected, Signed;
    ShiftedResidue(r);
    assert -HALF <= c - second < HALF;
    Nearest(c, ptime, second);
  }

  // Within half a span either way the low half determines the number.
  lemma Nearest(a: nat, b: nat, middle: nat)
    requires -HALF <= a - middle < HALF && a % U32 == b % U32
    ensures a == b <==> -HALF <= b - middle < HALF
  {
  }

  // From the talker's clock to the listener's: the packet carries the low half of the time
  // it is due, the talker's clock and the transit time, and a packet read while it is not
  // yet due, and due within 2^32 nanoseconds, is presented at exactly that time.
  lemma EndToEnd(talker: Timespec, transitMs: nat, now: nat)
    requires talker.sec * 1_000_000_000 + talker.nsec + transitMs * 1_000_000 < U64 && now < U64 - U32
    ensures var due := talker.sec * 1_000_000_000 + talker.nsec + transitMs * 1_000_000;
      && AvtpTime(talker, transitMs) == due % U32
      && (Rebuilt(AvtpTime(talker, transitMs), now) == due <==> now <= due < now + U32)
  {
    RebuiltIff(PresentAt(talker, transitMs), now);
  }
}
