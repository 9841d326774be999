/**
 From a servo just created to lock for good, on the edges and timestamps it is given.

 The clock is left alone while the acquisition window runs.  The slope over the window is
 off by what the first and the last sample err, and the loop takes it from there.
 */
module ColdStart {
  import opened Reals
  import opened Words
  import opened PiServo
  import opened ServoLoop
  import opened SlewRegime
  import opened WideLock
  import opened Measured
  import opened MeasuredLock

  // How far a sample may be off before there is lock, in nanoseconds.
  const JITTER := 950.0

  // Phase errors that no drift can turn into a step before the window has elapsed.
  const MAX_OFFSET := 95_000_000.0

  // The window takes at most this many edges.
  const WINDOW_EDGES := 602

  // A new servo, and a clock that nothing has been applied to.
  function Start(x: real): Loop {
    Loop(ZERO, x, 0.0)
  }

  function Elapsed(p: Plant, n: nat): int {
    p.stamp(n) as int - p.stamp(0) as int
  }

  // The timestamps are a multiple of their interval apart, and the edges by that and by
  // what the phase error has changed.
  function Due(p: Plant, x: real, y: real, n: nat): real {
    Times(n as real, Times(p.T, NSEC_PER_SEC - p.a)) + (y - x)
  }

  predicate CapturedAt(p: Plant, x: real, crf: nat -> nat, n: nat) {
    var y := FedAt(DEFAULTS, p, Start(x), crf, n).x;
    && Abs(Offset(p, crf, n) as real - y) <= JITTER
    && Abs(Elapsed(p, n) as real - Due(p, x, y, n)) <= 2.0 * JITTER
  }

  // Every sample is within a nanosecond of the phase error once the servo tracks, and
  // before that within the jitter, which the edge's own time shares.
  ghost predicate Captured(p: Plant, x: real, crf: nat -> nat) {
    forall n: nat :: SampleAt(p, x, crf, n)
  }

  predicate SampleAt(p: Plant, x: real, crf: nat -> nat, n: nat) {
    if FedAt(DEFAULTS, p, Start(x), crf, n).servo.phase == Tracking then AccurateAt(p, Start(x), crf, n)
    else CapturedAt(p, x, crf, n)
  }

  // ---- The window --------------------------------------------------------------

  // The phase error that the drift alone gives.
  function Coasted(p: Plant, x: real, n: nat): real {
    x + Times(n as real, Times(p.T, p.a))
  }

  // After n edges of an unfinished window.
  predicate Acquires(p: Plant, x: real, crf: nat -> nat, l: Loop, n: nat) {
    && l.servo.phase == Acquiring
    && l.servo.offset0 == Offset(p, crf, 0) as real && l.servo.local0 == p.stamp(0)
    && l.servo.drift == 0.0
    && l.applied == 0.0
    && l.x == Coasted(p, x, n)
  }

  lemma CoastedNext(p: Plant, x: real, n: nat)
    ensures Coasted(p, x, n + 1) == Coasted(p, x, n) + Times(p.T, p.a)
  {
    assert (n + 1) as real == n as real + 1.0;
    var rate := Times(p.T, p.a);
    assert (n as real + 1.0) * rate == n as real * rate + rate;
  }

  lemma FirstEdge(p: Plant, x: real, crf: nat -> nat)
    ensures Acquires(p, x, crf, FedAt(DEFAULTS, p, Start(x), crf, 1), 1)
  {
    assert FedAt(DEFAULTS, p, Start(x), crf, 0) == Start(x);
    CoastedNext(p, x, 0);
    assert Coasted(p, x, 0) == x;
  }

  // The slope that the servo computes when the window ends.
  function Slope(p: Plant, crf: nat -> nat, n: nat): real
    requires p.stamp(0) < p.stamp(n)
  {
    Acquired(0.0, Offset(p, crf, 0) as real, Offset(p, crf, n) as real, p.stamp(0), p.stamp(n))
  }

  // An edge of the window either watches on or ends it with the slope so far.
  lemma WindowEdge(p: Plant, x: real, crf: nat -> nat, l: Loop, n: nat)
    requires Acquires(p, x, crf, l, n) && p.stamp(0) < p.stamp(n)
    ensures var m := Fed(DEFAULTS, p, l, Offset(p, crf, n) as real, p.stamp(n));
      if Window(p.stamp(0), p.stamp(n)) < DEFAULTS.freqEstInterval then
        Acquires(p, x, crf, m, n + 1)
      else
        && m.servo.phase == Tracking
        && m.servo.drift == Clamp(Slope(p, crf, n), DEFAULTS.maxPpb)
        && m.x == Coasted(p, x, n) + Times(p.T, p.a - m.servo.drift)
  {
    CoastedNext(p, x, n);
    hide Coasted, Acquired, Window, Clamp, Offset;
  }

  // ---- How good the slope is -----------------------------------------------------

  // The edges of a clock left alone are its own period apart.
  lemma DueIs(p: Plant, x: real, n: nat)
    ensures Due(p, x, Coasted(p, x, n), n) == Times(n as real, Times(p.T, NSEC_PER_SEC))
  {
    var k := n as real;
    TimesSum(p.T, NSEC_PER_SEC - p.a, p.a);
    TimesSum(k, Times(p.T, NSEC_PER_SEC - p.a), Times(p.T, p.a));
    hide Times;
  }

  // How long n edges of the clock take.
  function Span(p: Plant, n: nat): real {
    Times(n as real, Times(p.T, NSEC_PER_SEC))
  }

  lemma SpanIs(p: Plant, n: nat)
    requires NearPeriod(p.T)
    ensures n as real * 3_326_666.0 <= Span(p, n) <= n as real * 3_340_000.0
  {
    var period := Times(p.T, NSEC_PER_SEC);
    assert 3_326_666.0 <= period <= 3_340_000.0;
    NonNegative(n as real, period - 3_326_666.0);
    NonNegative(n as real, 3_340_000.0 - period);
  }

  lemma ElapsedIs(p: Plant, x: real, crf: nat -> nat, n: nat)
    requires NearPeriod(p.T) && n >= 1
    requires CapturedAt(p, x, crf, n) && FedAt(DEFAULTS, p, Start(x), crf, n).x == Coasted(p, x, n)
    ensures Abs(Elapsed(p, n) as real - Span(p, n)) <= 2.0 * JITTER
    ensures p.stamp(0) < p.stamp(n)
    ensures n >= WINDOW_EDGES - 1 ==> Window(p.stamp(0), p.stamp(n)) >= DEFAULTS.freqEstInterval
    ensures Window(p.stamp(0), p.stamp(n)) >= DEFAULTS.freqEstInterval ==> Elapsed(p, n) as real >= 1_998_000_000.0
  {
    DueIs(p, x, n);
    SpanIs(p, n);
    hide FedAt, Coasted, Due, Span, Offset;
  }

  // An estimate d that err makes of the drift a over a span the clock takes.
  lemma OffBy(a: real, d: real, elapsed: real, span: real, err: real)
    requires Abs(a) <= WIDE_DRIFT && elapsed >= 1_998_000_000.0
    requires Abs(elapsed - span) <= 1_900.0 && Abs(err) <= 1_900.0
    requires Times(d, elapsed) == Times(a, span) + NSEC_PER_SEC * err
    ensures Abs(a - d) <= GRASP
  {
    TimesSum(a, span, elapsed - span);
    assert span + (elapsed - span) == elapsed;
    DifferenceTimes(a, d, elapsed);
    ProductWithin(a, elapsed - span);
    hide Times;
    if a - d > 967.0 {
      LargeProduct(a - d, elapsed);
    } else if d - a > 967.0 {
      LargeProduct(d - a, elapsed);
      NegatedTimes(a - d, elapsed);
    }
  }

  lemma DifferenceTimes(a: real, d: real, span: real)
    ensures Times(a - d, span) == Times(a, span) - Times(d, span)
  {
  }

  lemma NegatedTimes(m: real, span: real)
    ensures Times(-m, span) == -Times(m, span)
  {
  }

  lemma LargeProduct(off: real, span: real)
    requires span >= 1_998_000_000.0 && off > 967.0
    ensures Times(off, span) > 1_932_000_000_000.0
  {
    NonNegative(off - 967.0, span);
    assert (off - 967.0) * span == Times(off, span) - 967.0 * span;
  }

  lemma ProductWithin(a: real, late: real)
    requires Abs(a) <= 1_998_700.0 && Abs(late) <= 1_900.0
    ensures Abs(Times(a, late)) <= 3_797_530_000.0
  {
    var y := Scaled(Abs(a), late, 1_900.0);
    assert Abs(y) <= Abs(a) * 1_900.0;
    assert Abs(y) == Abs(Times(a, late));
  }

  lemma SlopeIs(p: Plant, x: real, crf: nat -> nat, n: nat, err: real)
    requires p.stamp(0) < p.stamp(n)
    requires err == (Offset(p, crf, n) - Offset(p, crf, 0)) as real - (Coasted(p, x, n) - x)
    ensures Times(Slope(p, crf, n), Elapsed(p, n) as real) == Times(p.a, Span(p, n)) + NSEC_PER_SEC * err
  {
    var rise := (Offset(p, crf, n) - Offset(p, crf, 0)) as real;
    var span := Elapsed(p, n) as real;
    assert Slope(p, crf, n) == NSEC_PER_SEC * rise / span;
    assert NSEC_PER_SEC * rise / span * span == NSEC_PER_SEC * rise;
    assert rise == err + Times(n as real, Times(p.T, p.a));
    Reorder(n as real, p.T, p.a);
  }

  lemma Reorder(n: real, T: real, a: real)
    ensures NSEC_PER_SEC * Times(n, Times(T, a)) == Times(a, Times(n, Times(T, NSEC_PER_SEC)))
  {
  }

  lemma SlopeSeeds(p: Plant, x: real, crf: nat -> nat, n: nat)
    requires SteadyPlant(p) && n >= 1
    requires CapturedAt(p, x, crf, 0) && CapturedAt(p, x, crf, n)
    requires FedAt(DEFAULTS, p, Start(x), crf, n).x == Coasted(p, x, n)
    requires p.stamp(0) < p.stamp(n) && Window(p.stamp(0), p.stamp(n)) >= DEFAULTS.freqEstInterval
    ensures Abs(p.a - Slope(p, crf, n)) <= GRASP
  {
    ElapsedIs(p, x, crf, n);
    assert FedAt(DEFAULTS, p, Start(x), crf, 0).x == x;
    var err := (Offset(p, crf, n) - Offset(p, crf, 0)) as real - (Coasted(p, x, n) - x);
    SlopeIs(p, x, crf, n, err);
    hide FedAt, Coasted, Offset, Slope, Span, Times, Due, Window, Elapsed;
    OffBy(p.a, Slope(p, crf, n), Elapsed(p, n) as real, Span(p, n), err);
  }

  lemma CoastedWithin(p: Plant, x: real, n: nat)
    requires SteadyPlant(p) && n <= WINDOW_EDGES
    ensures Abs(Coasted(p, x, n) - x) <= 2.02 * Abs(p.a)
    ensures Abs(Times(p.T, p.a)) <= 6_700.0
  {
    CoastRate(p.T, p.a);
    CoastFar(n as real, Times(p.T, p.a), LONGEST * Abs(p.a));
    hide Times;
  }

  lemma CoastRate(T: real, a: real)
    requires NearPeriod(T)
    ensures Abs(Times(T, a)) <= LONGEST * Abs(a)
  {
    var rate := Scaled(T, a, Abs(a));
    NonNegative(LONGEST - T, Abs(a));
  }

  lemma CoastFar(n: real, rate: real, bound: real)
    requires 0.0 <= n <= 602.0 && Abs(rate) <= bound
    ensures Abs(Times(n, rate)) <= 602.0 * bound
  {
    var far := Scaled(n, rate, bound);
    NonNegative(602.0 - n, bound);
  }

  // Edge n ends the window: the loop tracks, with an estimate it can work with.
  lemma WindowEnds(p: Plant, x: real, crf: nat -> nat, n: nat)
    requires SteadyPlant(p) && Abs(x) <= MAX_OFFSET && 1 <= n <= WINDOW_EDGES
    requires CapturedAt(p, x, crf, 0) && CapturedAt(p, x, crf, n)
    requires Acquires(p, x, crf, FedAt(DEFAULTS, p, Start(x), crf, n), n)
    requires p.stamp(0) < p.stamp(n) && Window(p.stamp(0), p.stamp(n)) >= DEFAULTS.freqEstInterval
    ensures Graspable(p, FedAt(DEFAULTS, p, Start(x), crf, n + 1))
    ensures Abs(FedAt(DEFAULTS, p, Start(x), crf, n + 1).x) <= Abs(x) + 2.02 * Abs(p.a) + 4.0
  {
    var l := FedAt(DEFAULTS, p, Start(x), crf, n);
    var m := FedAt(DEFAULTS, p, Start(x), crf, n + 1);
    FedNext(DEFAULTS, p, Start(x), crf, n);
    WindowEdge(p, x, crf, l, n);
    SlopeSeeds(p, x, crf, n);
    CoastedWithin(p, x, n);
    SmallStep(p.T, p.a - m.servo.drift);
    hide FedAt, Fed, Coasted, Slope, Offset, Times, Window;
  }

  lemma SmallStep(T: real, v: real)
    requires NearPeriod(T) && Abs(v) <= GRASP
    ensures Abs(Times(T, v)) <= 4.0
  {
    var step := Scaled(T, v, 967.0);
    NonNegative(LONGEST - T, 967.0);
  }

  lemma {:induction false} WindowRuns(p: Plant, x: real, crf: nat -> nat, n: nat) returns (k: nat)
    requires SteadyPlant(p) && Abs(x) <= MAX_OFFSET && Captured(p, x, crf)
    requires 1 <= n < WINDOW_EDGES && Acquires(p, x, crf, FedAt(DEFAULTS, p, Start(x), crf, n), n)
    ensures n < k <= WINDOW_EDGES && Graspable(p, FedAt(DEFAULTS, p, Start(x), crf, k))
    ensures Abs(FedAt(DEFAULTS, p, Start(x), crf, k).x) <= Abs(x) + 2.02 * Abs(p.a) + 4.0
    ensures forall i :: n <= i < k ==> Coasts(p, x, crf, i)
    decreases WINDOW_EDGES - n
  {
    WindowStep(p, x, crf, n);
    k := n + 1;
    hide Acquires, Graspable, FedAt, Captured, Coasts;
    if !Graspable(p, FedAt(DEFAULTS, p, Start(x), crf, k)) {
      k := WindowRuns(p, x, crf, n + 1);
    }
  }

  lemma WindowStep(p: Plant, x: real, crf: nat -> nat, n: nat)
    requires SteadyPlant(p) && Abs(x) <= MAX_OFFSET && Captured(p, x, crf)
    requires 1 <= n < WINDOW_EDGES && Acquires(p, x, crf, FedAt(DEFAULTS, p, Start(x), crf, n), n)
    ensures Coasts(p, x, crf, n)
    ensures var m := FedAt(DEFAULTS, p, Start(x), crf, n + 1);
      if Graspable(p, m) then Abs(m.x) <= Abs(x) + 2.02 * Abs(p.a) + 4.0
      else n + 1 < WINDOW_EDGES && Acquires(p, x, crf, m, n + 1)
  {
    assert SampleAt(p, x, crf, 0) && SampleAt(p, x, crf, n);
    assert FedAt(DEFAULTS, p, Start(x), crf, 0).servo.phase == Idle;
    hide Fed, FedAt, Window, CapturedAt, AccurateAt, Coasted, Offset, Captured;
    ElapsedIs(p, x, crf, n);
    if Window(p.stamp(0), p.stamp(n)) >= DEFAULTS.freqEstInterval {
      WindowEnds(p, x, crf, n);
    } else {
      WindowEdge(p, x, crf, FedAt(DEFAULTS, p, Start(x), crf, n), n);
      FedNext(DEFAULTS, p, Start(x), crf, n);
      NotYet(p, x, crf, FedAt(DEFAULTS, p, Start(x), crf, n + 1), n + 1);
    }
  }

  lemma NotYet(p: Plant, x: real, crf: nat -> nat, l: Loop, n: nat)
    requires Acquires(p, x, crf, l, n)
    ensures !Graspable(p, l)
  {
  }

  // Edge n is one of the window's.
  predicate Coasts(p: Plant, x: real, crf: nat -> nat, n: nat) {
    var l := FedAt(DEFAULTS, p, Start(x), crf, n);
    l.servo.phase == Acquiring && l.x == Coasted(p, x, n)
  }

  // ---- Lock ------------------------------------------------------------------------

  // A loop with such an estimate goes on tracking, and so its samples stay accurate.
  lemma {:induction false} TracksOn(p: Plant, x: real, crf: nat -> nat, from: nat, n: nat)
    requires SteadyPlant(p) && Captured(p, x, crf) && Graspable(p, FedAt(DEFAULTS, p, Start(x), crf, from))
    ensures Held(p, FedAt(DEFAULTS, p, Start(x), crf, from + n))
    ensures AccurateAt(p, Start(x), crf, from + n)
  {
    hide FedAt, CapturedAt;
    if n == 0 {
      GraspableIsHeld(p, FedAt(DEFAULTS, p, Start(x), crf, from));
    } else {
      TracksOn(p, x, crf, from, n - 1);
      hide Held, AccurateAt, LoopLevel;
      FedEdge(p, Start(x), crf, from + n - 1);
    }
    HeldTracks(p, FedAt(DEFAULTS, p, Start(x), crf, from + n));
    assert SampleAt(p, x, crf, from + n);
  }

  lemma AccurateFrom(p: Plant, x: real, crf: nat -> nat, k: nat)
    requires SteadyPlant(p) && Captured(p, x, crf) && Graspable(p, FedAt(DEFAULTS, p, Start(x), crf, k))
    ensures Accurate(p, Start(x), crf, k)
  {
    hide FedAt, AccurateAt, Graspable, Captured;
    forall n: nat | n >= k
      ensures AccurateAt(p, Start(x), crf, n)
    {
      TracksOn(p, x, crf, k, n - k);
    }
  }

  // A new servo locks for good: it tracks from edge k on, at most two seconds after the
  // first edge, and from edge m on the PI branch has every sample.
  lemma ColdStartLocks(p: Plant, x: real, crf: nat -> nat) returns (k: nat, m: nat)
    requires SteadyPlant(p) && Abs(x) <= MAX_OFFSET && Captured(p, x, crf)
    ensures 1 < k <= WINDOW_EDGES && k <= m
    ensures forall n :: 1 <= n < k ==> Coasts(p, x, crf, n)
    ensures Abs(FedAt(DEFAULTS, p, Start(x), crf, k).x) <= Abs(x) + 2.02 * Abs(p.a) + 4.0
    ensures forall n: nat :: n >= k ==> StaysNear(p, Start(x), crf, k, n) && AccurateAt(p, Start(x), crf, n)
    ensures LockedFrom(p, Start(x), crf, m)
  {
    FirstEdge(p, x, crf);
    hide FedAt, Graspable, Acquires, LockedFrom, Captured, StaysNear, AccurateAt;
    k := WindowRuns(p, x, crf, 1);
    AccurateFrom(p, x, crf, k);
    m := MeasuredLocks(p, Start(x), crf, k);
  }

  // ---- Such edges and timestamps exist ----------------------------------------------

  // A time in whole nanoseconds.
  function Nearest(r: real): (n: nat)
    ensures r >= 0.0 ==> Abs(n as real - r) <= 0.5
  {
    if r < 0.0 then 0 else (r + 0.5).Floor
  }

  function Reference(T: real, a: real, start: real, n: nat): real {
    start + Times(n as real, Times(T, NSEC_PER_SEC - a))
  }

  // The edge that phase error x at timestamp n makes.
  function EdgeAt(T: real, a: real, start: real, x: real, n: nat): nat {
    Nearest(Reference(T, a, start, n) + x)
  }

  function StampAt(T: real, a: real, start: real, n: nat): nat {
    Nearest(Reference(T, a, start, n))
  }

  // The clock without its edges.
  function Steered(T: real, a: real): Plant {
    Plant(T, a, _ => 0)
  }

  // The loop, each edge captured as its phase error has come to be.
  function Live(T: real, a: real, start: real, x: real, n: nat): Loop {
    if n == 0 then Start(x)
    else
      var l := Live(T, a, start, x, n - 1);
      var edge := EdgeAt(T, a, start, l.x, n - 1);
      Fed(DEFAULTS, Steered(T, a), l, (edge - StampAt(T, a, start, n - 1)) as real, edge)
  }

  // Edge n of a plant and its timestamp are the live loop's.
  predicate LiveAt(p: Plant, crf: nat -> nat, start: real, x: real, n: nat) {
    && p.stamp(n) == EdgeAt(p.T, p.a, start, Live(p.T, p.a, start, x, n).x, n)
    && crf(n) == StampAt(p.T, p.a, start, n)
  }

  lemma {:induction false} LiveIsFed(p: Plant, crf: nat -> nat, start: real, x: real, n: nat)
    requires forall i: nat :: LiveAt(p, crf, start, x, i)
    ensures FedAt(DEFAULTS, p, Start(x), crf, n) == Live(p.T, p.a, start, x, n)
  {
    hide Live, FedAt, Fed, Offset, LiveAt, Start;
    if n == 0 {
      LiveFirst(p, crf, start, x);
    } else {
      assert LiveAt(p, crf, start, x, n - 1);
      LiveIsFed(p, crf, start, x, n - 1);
      LiveNext(p, crf, start, x, n - 1);
      FedNext(DEFAULTS, p, Start(x), crf, n - 1);
    }
  }

  lemma LiveFirst(p: Plant, crf: nat -> nat, start: real, x: real)
    ensures FedAt(DEFAULTS, p, Start(x), crf, 0) == Live(p.T, p.a, start, x, 0) == Start(x)
  {
  }

  lemma LiveNext(p: Plant, crf: nat -> nat, start: real, x: real, n: nat)
    requires LiveAt(p, crf, start, x, n)
    ensures Live(p.T, p.a, start, x, n + 1)
      == Fed(DEFAULTS, p, Live(p.T, p.a, start, x, n), Offset(p, crf, n) as real, p.stamp(n))
  {
    hide EdgeAt, StampAt, Fed;
    SameFed(p, Steered(p.T, p.a), Live(p.T, p.a, start, x, n), Offset(p, crf, n) as real, p.stamp(n));
  }

  lemma SameFed(p: Plant, q: Plant, l: Loop, y: real, local: nat)
    requires p.T == q.T && p.a == q.a
    ensures Fed(DEFAULTS, p, l, y, local) == Fed(DEFAULTS, q, l, y, local)
  {
    hide Step;
  }

  // Where the phase error can be, all samples are off by no more than rounding.
  lemma LiveSample(p: Plant, crf: nat -> nat, start: real, x: real, n: nat)
    requires SteadyPlant(p) && start >= 200_000_000.0 && Abs(x) <= MAX_OFFSET
    requires forall i: nat :: LiveAt(p, crf, start, x, i)
    requires Abs(FedAt(DEFAULTS, p, Start(x), crf, n).x) <= 100_000_000.0
    ensures SampleAt(p, x, crf, n)
  {
    var y := Live(p.T, p.a, start, x, n).x;
    LiveIsFed(p, crf, start, x, n);
    assert LiveAt(p, crf, start, x, 0) && LiveAt(p, crf, start, x, n);
    assert Live(p.T, p.a, start, x, 0).x == x;
    SampledAs(p, crf, start, x, n);
    hide FedAt, Live, Times, Nearest, Reference, LiveAt, Offset, Elapsed;
    ReferenceLater(p.T, p.a, start, n);
    RoundedSample(Reference(p.T, p.a, start, 0), Reference(p.T, p.a, start, n), x, y);
    ReferenceIs(p.T, p.a, start, n);
  }

  lemma SampledAs(p: Plant, crf: nat -> nat, start: real, x: real, n: nat)
    requires LiveAt(p, crf, start, x, 0) && LiveAt(p, crf, start, x, n)
    ensures var from, to, y := Reference(p.T, p.a, start, 0), Reference(p.T, p.a, start, n),
                               Live(p.T, p.a, start, x, n).x;
      && Offset(p, crf, n) == Nearest(to + y) - Nearest(to)
      && Elapsed(p, n) == Nearest(to + y) - Nearest(from + x)
  {
    hide Nearest, Reference;
  }

  lemma RoundedSample(from: real, to: real, x: real, y: real)
    requires from >= 200_000_000.0 && to >= 200_000_000.0
    requires Abs(x) <= 100_000_000.0 && Abs(y) <= 100_000_000.0
    ensures Abs((Nearest(to + y) - Nearest(to)) as real - y) <= 1.0
    ensures Abs((Nearest(to + y) - Nearest(from + x)) as real - (to - from + (y - x))) <= 1.0
  {
    hide Nearest;
  }

  lemma ReferenceIs(T: real, a: real, start: real, n: nat)
    ensures Reference(T, a, start, n) - Reference(T, a, start, 0) == Times(n as real, Times(T, NSEC_PER_SEC - a))
  {
  }

  lemma ReferenceLater(T: real, a: real, start: real, n: nat)
    requires NearPeriod(T) && Abs(a) <= WIDE_DRIFT
    ensures Reference(T, a, start, n) >= start
    ensures Reference(T, a, start, 0) == start
  {
    NonNegative(T, NSEC_PER_SEC - a);
    NonNegative(n as real, Times(T, NSEC_PER_SEC - a));
  }

  // The loop before it tracks, and after.
  predicate Alive(p: Plant, x: real, crf: nat -> nat, n: nat) {
    var l := FedAt(DEFAULTS, p, Start(x), crf, n);
    || n == 0
    || (n < WINDOW_EDGES && Acquires(p, x, crf, l, n))
    || Held(p, l)
  }

  lemma AliveNear(p: Plant, x: real, crf: nat -> nat, n: nat)
    requires SteadyPlant(p) && Abs(x) <= MAX_OFFSET && Alive(p, x, crf, n)
    ensures Abs(FedAt(DEFAULTS, p, Start(x), crf, n).x) <= 100_000_000.0
  {
    if n < WINDOW_EDGES {
      CoastedWithin(p, x, n);
    }
    hide Coasted, Fed;
  }

  lemma AliveNext(p: Plant, x: real, crf: nat -> nat, n: nat)
    requires SteadyPlant(p) && Abs(x) <= MAX_OFFSET && Alive(p, x, crf, n)
    requires SampleAt(p, x, crf, 0) && SampleAt(p, x, crf, n)
    ensures Alive(p, x, crf, n + 1)
  {
    var l := FedAt(DEFAULTS, p, Start(x), crf, n);
    assert FedAt(DEFAULTS, p, Start(x), crf, 0) == Start(x);
    assert FedAt(DEFAULTS, p, Start(x), crf, n + 1) == Fed(DEFAULTS, p, l, Offset(p, crf, n) as real, p.stamp(n));
    if n == 0 {
      FirstEdge(p, x, crf);
    } else if l.servo.phase == Tracking {
      HeldNext(p, x, crf, n);
    } else {
      hide FedAt, Fed, Held, Window, Coasted, CapturedAt, Offset;
      AcquiresNext(p, x, crf, n);
    }
  }

  lemma HeldNext(p: Plant, x: real, crf: nat -> nat, n: nat)
    requires SteadyPlant(p) && Alive(p, x, crf, n) && SampleAt(p, x, crf, n) && n > 0
    requires FedAt(DEFAULTS, p, Start(x), crf, n).servo.phase == Tracking
    ensures Alive(p, x, crf, n + 1)
  {
    hide FedAt, Held, AccurateAt, LoopLevel, Offset;
    FedEdge(p, Start(x), crf, n);
  }

  lemma AcquiresNext(p: Plant, x: real, crf: nat -> nat, n: nat)
    requires SteadyPlant(p) && Abs(x) <= MAX_OFFSET && 1 <= n < WINDOW_EDGES
    requires Acquires(p, x, crf, FedAt(DEFAULTS, p, Start(x), crf, n), n)
    requires CapturedAt(p, x, crf, 0) && CapturedAt(p, x, crf, n)
    ensures Alive(p, x, crf, n + 1)
  {
    ElapsedIs(p, x, crf, n);
    var l := FedAt(DEFAULTS, p, Start(x), crf, n);
    assert FedAt(DEFAULTS, p, Start(x), crf, n + 1) == Fed(DEFAULTS, p, l, Offset(p, crf, n) as real, p.stamp(n));
    hide FedAt, Fed, Held, Window, Coasted, CapturedAt, Offset, Acquires;
    if Window(p.stamp(0), p.stamp(n)) >= DEFAULTS.freqEstInterval {
      WindowEnds(p, x, crf, n);
      GraspableIsHeld(p, FedAt(DEFAULTS, p, Start(x), crf, n + 1));
    } else {
      WindowEdge(p, x, crf, l, n);
    }
  }

  lemma {:induction false} LiveSamples(p: Plant, crf: nat -> nat, start: real, x: real, n: nat)
    requires SteadyPlant(p) && start >= 200_000_000.0 && Abs(x) <= MAX_OFFSET
    requires forall i: nat :: LiveAt(p, crf, start, x, i)
    ensures Alive(p, x, crf, n) && SampleAt(p, x, crf, n) && SampleAt(p, x, crf, 0)
  {
    assert Alive(p, x, crf, 0);
    hide FedAt, SampleAt, Alive, LiveAt;
    AliveNear(p, x, crf, 0);
    LiveSample(p, crf, start, x, 0);
    if n > 0 {
      LiveSamples(p, crf, start, x, n - 1);
      AliveNext(p, x, crf, n - 1);
    }
    AliveNear(p, x, crf, n);
    LiveSample(p, crf, start, x, n);
  }

  // For every drift, edge period and phase error there are edges and timestamps, in whole
  // nanoseconds, that are captured as `ColdStartLocks` asks.
  lemma Realised(T: real, a: real, x: real) returns (p: Plant, crf: nat -> nat)
    requires NearPeriod(T) && Abs(a) <= WIDE_DRIFT && Abs(x) <= MAX_OFFSET
    ensures p.T == T && p.a == a && Captured(p, x, crf)
  {
    var start := 200_000_000.0;
    p := Plant(T, a, n => EdgeAt(T, a, start, Live(T, a, start, x, n).x, n));
    crf := n => StampAt(T, a, start, n);
    hide SampleAt, Alive, EdgeAt, StampAt, Live;
    assert forall i: nat :: LiveAt(p, crf, start, x, i);
    forall n: nat
      ensures SampleAt(p, x, crf, n)
    {
      LiveSamples(p, crf, start, x, n);
    }
  }
}
