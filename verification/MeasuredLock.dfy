/**
 Lock of the default loop on measured samples.

 With an estimate within 967 ppb of the true drift and every sample within a nanosecond of
 the phase error, the loop ends up in the PI branch for good, whatever the phase error and
 for every edge period near the default; what the samples' error leaves of the energy is
 stated too.
 */
module MeasuredLock {
  import opened Reals
  import opened PiServo
  import opened ServoLoop
  import opened SlewRegime
  import opened DefaultLoop
  import opened WideLock
  import opened Measured

  // Each sample from edge `from` on is within a nanosecond of the phase error.
  ghost predicate Accurate(p: Plant, l: Loop, crf: nat -> nat, from: nat) {
    forall n: nat :: n >= from ==> AccurateAt(p, l, crf, n)
  }

  predicate AccurateAt(p: Plant, l: Loop, crf: nat -> nat, n: nat) {
    Abs(Offset(p, crf, n) as real - FedAt(DEFAULTS, p, l, crf, n).x) <= 1.0
  }

  // Rounding to the nearest nanosecond is accurate enough.
  lemma RoundedIsAccurate(p: Plant, l: Loop, crf: nat -> nat, from: nat)
    requires forall n: nat :: n >= from ==>
      Abs(Offset(p, crf, n) as real - FedAt(DEFAULTS, p, l, crf, n).x) <= 0.5
    ensures Accurate(p, l, crf, from)
  {
    hide FedAt;
  }

  // ---- Down to the window and the estimate ----------------------------------

  function Farther(x: real, y: real): real {
    if x < y then y else x
  }

  lemma FedEdge(p: Plant, l: Loop, crf: nat -> nat, n: nat)
    requires SteadyPlant(p) && AccurateAt(p, l, crf, n) && Held(p, FedAt(DEFAULTS, p, l, crf, n))
    ensures var s, m := FedAt(DEFAULTS, p, l, crf, n), FedAt(DEFAULTS, p, l, crf, n + 1);
      && Held(p, m)
      && (if Abs(Offset(p, crf, n) as real) <= 500.0 then
            && LoopLevel(p, s) <= LID && Abs(m.x) <= 506.0
            && LoopLevel(p, m) <= 0.999997 * LoopLevel(p, s) + 0.0575
          else
            && Abs(m.x) <= Abs(s.x) - 0.033 && LoopLevel(p, m) <= LoopLevel(p, s))
  {
    FedNext(DEFAULTS, p, l, crf, n);
    hide FedAt, Fed, Held, LoopLevel, Offset;
    HeldEdge(p, FedAt(DEFAULTS, p, l, crf, n), Offset(p, crf, n) as real, p.stamp(n));
  }

  // The loop tracks for ever, and its phase error never grows beyond the window again.
  lemma {:induction false} HeldForever(p: Plant, l: Loop, crf: nat -> nat, from: nat, n: nat)
    requires SteadyPlant(p) && Accurate(p, l, crf, from) && Held(p, FedAt(DEFAULTS, p, l, crf, from))
    ensures var s, t := FedAt(DEFAULTS, p, l, crf, from), FedAt(DEFAULTS, p, l, crf, from + n);
      Held(p, t) && Abs(t.x) <= Farther(Abs(s.x), 506.0)
  {
    hide FedAt, Held, LoopLevel, Offset, SteadyPlant;
    if n > 0 {
      HeldForever(p, l, crf, from, n - 1);
      assert AccurateAt(p, l, crf, from + n - 1);
      FedEdge(p, l, crf, from + n - 1);
    }
  }

  // Every slewing edge takes at least 0.033 ns off the phase error.
  lemma {:induction false} Lands(p: Plant, l: Loop, crf: nat -> nat, from: nat, budget: nat) returns (m: nat)
    requires SteadyPlant(p) && Accurate(p, l, crf, from) && Held(p, FedAt(DEFAULTS, p, l, crf, from))
    requires Abs(FedAt(DEFAULTS, p, l, crf, from).x) <= 499.0 + 0.033 * budget as real
    ensures m >= from && Abs(Offset(p, crf, m) as real) <= 500.0
    ensures var s, t := FedAt(DEFAULTS, p, l, crf, from), FedAt(DEFAULTS, p, l, crf, m);
      Held(p, t) && LoopLevel(p, t) <= LID && (LoopLevel(p, s) <= LID ==> LoopLevel(p, t) <= LoopLevel(p, s))
    decreases budget
  {
    assert AccurateAt(p, l, crf, from);
    hide FedAt, Held, LoopLevel, Offset;
    FedEdge(p, l, crf, from);
    m := from;
    if Abs(Offset(p, crf, from) as real) > 500.0 {
      m := Lands(p, l, crf, from + 1, budget - 1);
    }
  }

  // Levels the error of the samples lets the loop get down to.
  const LOW := 21_600.0

  // Every edge in the window takes some off the level until it is low.
  lemma {:induction false} ToLow(p: Plant, l: Loop, crf: nat -> nat, from: nat, budget: nat) returns (m: nat)
    requires SteadyPlant(p) && Accurate(p, l, crf, from) && Held(p, FedAt(DEFAULTS, p, l, crf, from))
    requires LoopLevel(p, FedAt(DEFAULTS, p, l, crf, from)) <= LID
    requires LoopLevel(p, FedAt(DEFAULTS, p, l, crf, from)) <= LOW + 0.0073 * budget as real
    ensures m >= from && Abs(Offset(p, crf, m) as real) <= 500.0
    ensures Held(p, FedAt(DEFAULTS, p, l, crf, m)) && LoopLevel(p, FedAt(DEFAULTS, p, l, crf, m)) <= LOW
    decreases budget
  {
    hide FedAt, Held, LoopLevel, Offset;
    var steps := Distance(FedAt(DEFAULTS, p, l, crf, from).x);
    m := Lands(p, l, crf, from, steps);
    if LoopLevel(p, FedAt(DEFAULTS, p, l, crf, m)) > LOW {
      assert AccurateAt(p, l, crf, m);
      FedEdge(p, l, crf, m);
      m := ToLow(p, l, crf, m + 1, budget - 1);
    }
  }

  lemma Distance(x: real) returns (budget: nat)
    ensures Abs(x) <= 499.0 + 0.033 * budget as real
  {
    budget := (Abs(x) * 100.0).Floor + 1;
  }

  // ---- Into the ellipse ------------------------------------------------------

  // Energies that bound phase error and estimate enough for both branches to lower them.
  const REGION := 37_000.0

  // Energies that keep every sample in the PI branch.
  const ORBIT := 8_400.0

  predicate Nearing(p: Plant, l: Loop) {
    l.servo.phase == Tracking && CommonEnergy(p, l) <= REGION
  }

  lemma LowInRegion(x: real, e: real)
    requires Abs(x) <= 501.0 && Level(x, e) <= LOW
    ensures Common(x, e) <= REGION
  {
    var y := ScaledSquare(0.045, x - e / 2.0);
    assert Level(x, e) == y + 0.98875 * (e * e);
    SquareRoot(0.98875, e, 148.0);
    var xx := SquareWithin(x, 501.0);
    var ee := SquareWithin(e, 148.0);
    var xe := Scaled(Abs(x), e, 148.0);
    assert Abs(x * e) == Abs(xe) <= 74_148.0;
    assert Common(x, e) == 0.036 * xx - 0.08 * (x * e) + ee;
    hide Level, Common;
  }

  lemma Extent(x: real, e: real, far: real, off: real)
    requires (far == 1038.0 && off == 197.0 && Common(x, e) <= REGION)
      || (far == 495.0 && off == 94.0 && Common(x, e) <= ORBIT)
    ensures Abs(x) <= far && Abs(e) <= off
  {
    var ahead := ScaledSquare(1.0, e - 0.04 * x);
    assert Common(x, e) == 0.0344 * (x * x) + ahead;
    var across := ScaledSquare(0.036, x - 10.0 / 9.0 * e);
    assert Common(x, e) == across + 43.0 / 45.0 * (e * e);
    SquareRoot(0.0344, x, far);
    SquareRoot(43.0 / 45.0, e, off);
  }

  // One edge in the region, in whichever branch.
  lemma NearingEdge(p: Plant, l: Loop, y: real, local: nat)
    requires SteadyPlant(p) && Nearing(p, l) && Abs(y - l.x) <= 1.0
    ensures var m := Fed(DEFAULTS, p, l, y, local);
      && m.servo.phase == Tracking
      && (CommonEnergy(p, m) <= 0.99999 * CommonEnergy(p, l) + 0.0156
          || (Abs(y) > 500.0 && CommonEnergy(p, m) <= CommonEnergy(p, l) - 0.07))
  {
    var x, e := l.x, Residual(p, l);
    Extent(x, e, 1038.0, 197.0);
    if Abs(y) <= 500.0 {
      FedPi(p, l, y, local);
      CommonEdge(p.T, ActiveKi(DEFAULTS, l.servo), x, y, e);
      hide Fed, Residual, Common, FedX, NextE;
    } else {
      FedSlew(p, l, y, local);
      var m := Fed(DEFAULTS, p, l, y, local);
      hide Fed, Residual, Common, Clamp, Times;
      SlewEdge(p.T, p.a, x, y, e, m.x);
    }
  }

  lemma FedNearing(p: Plant, l: Loop, crf: nat -> nat, n: nat)
    requires SteadyPlant(p) && AccurateAt(p, l, crf, n) && Nearing(p, FedAt(DEFAULTS, p, l, crf, n))
    ensures var s, m := FedAt(DEFAULTS, p, l, crf, n), FedAt(DEFAULTS, p, l, crf, n + 1);
      && Nearing(p, m)
      && (CommonEnergy(p, s) > ORBIT ==> CommonEnergy(p, m) <= CommonEnergy(p, s) - 0.068)
      && (CommonEnergy(p, s) <= ORBIT ==> CommonEnergy(p, m) <= ORBIT)
  {
    FedNext(DEFAULTS, p, l, crf, n);
    hide FedAt, Fed, CommonEnergy, Offset;
    NearingEdge(p, FedAt(DEFAULTS, p, l, crf, n), Offset(p, crf, n) as real, p.stamp(n));
  }

  lemma {:induction false} ToOrbit(p: Plant, l: Loop, crf: nat -> nat, from: nat, budget: nat) returns (m: nat)
    requires SteadyPlant(p) && Accurate(p, l, crf, from) && Nearing(p, FedAt(DEFAULTS, p, l, crf, from))
    requires CommonEnergy(p, FedAt(DEFAULTS, p, l, crf, from)) <= ORBIT + 0.068 * budget as real
    ensures m >= from && Orbits(p, FedAt(DEFAULTS, p, l, crf, m))
    decreases budget
  {
    hide FedAt, CommonEnergy;
    m := from;
    if CommonEnergy(p, FedAt(DEFAULTS, p, l, crf, from)) > ORBIT {
      assert AccurateAt(p, l, crf, from);
      FedNearing(p, l, crf, from);
      m := ToOrbit(p, l, crf, from + 1, budget - 1);
    }
  }

  predicate Orbits(p: Plant, l: Loop) {
    l.servo.phase == Tracking && CommonEnergy(p, l) <= ORBIT
  }

  // ---- For good ---------------------------------------------------------------

  // What one edge leaves of the energy, and what the error of the samples may keep of it.
  const KEEP := 0.99999
  const FLOOR := 1_560.0

  lemma OrbitEdge(p: Plant, l: Loop, y: real, local: nat)
    requires SteadyPlant(p) && Orbits(p, l) && Abs(y - l.x) <= 1.0
    ensures FedInPi(l, y)
    ensures var m := Fed(DEFAULTS, p, l, y, local);
      && Orbits(p, m)
      && CommonEnergy(p, m) <= KEEP * CommonEnergy(p, l) + 0.0156
  {
    Extent(l.x, Residual(p, l), 495.0, 94.0);
    FedPi(p, l, y, local);
    NearingEdge(p, l, y, local);
    hide Fed, FedInPi, CommonEnergy;
  }

  // From then on every sample is handled by the PI branch, and the energy shrinks
  // geometrically to what the samples' error keeps up.
  lemma {:induction false} OrbitsForever(p: Plant, l: Loop, crf: nat -> nat, from: nat, n: nat)
    requires SteadyPlant(p) && Accurate(p, l, crf, from) && Orbits(p, FedAt(DEFAULTS, p, l, crf, from))
    ensures var t := FedAt(DEFAULTS, p, l, crf, from + n);
      && Orbits(p, t)
      && FedInPi(t, Offset(p, crf, from + n) as real)
      && CommonEnergy(p, t) <= Pow(KEEP, n) * ORBIT + FLOOR
  {
    hide FedAt, Fed, FedInPi, CommonEnergy, Offset;
    if n > 0 {
      var k := from + n - 1;
      OrbitsForever(p, l, crf, from, n - 1);
      assert AccurateAt(p, l, crf, k);
      OrbitEdge(p, FedAt(DEFAULTS, p, l, crf, k), Offset(p, crf, k) as real, p.stamp(k));
      FedNext(DEFAULTS, p, l, crf, k);
      assert Pow(KEEP, n) == KEEP * Pow(KEEP, n - 1);
    }
    hide Pow;
    assert AccurateAt(p, l, crf, from + n);
    OrbitEdge(p, FedAt(DEFAULTS, p, l, crf, from + n), Offset(p, crf, from + n) as real, p.stamp(from + n));
  }

  // All samples from edge m on are handled by the PI branch, the phase error stays within
  // 495 ns and the estimate within 94 ppb, and the energy goes down to the floor.
  ghost predicate LockedFrom(p: Plant, l: Loop, crf: nat -> nat, m: nat) {
    forall n: nat :: n >= m ==> LockedAt(p, l, crf, m, n)
  }

  predicate LockedAt(p: Plant, l: Loop, crf: nat -> nat, m: nat, n: nat)
    requires n >= m
  {
    var t := FedAt(DEFAULTS, p, l, crf, n);
    && FedInPi(t, Offset(p, crf, n) as real)
    && Abs(t.x) <= 495.0 && Abs(Residual(p, t)) <= 94.0
    && CommonEnergy(p, t) <= Pow(KEEP, n - m) * ORBIT + FLOOR
  }

  lemma OrbitLocks(p: Plant, l: Loop, crf: nat -> nat, m: nat)
    requires SteadyPlant(p) && Accurate(p, l, crf, m) && Orbits(p, FedAt(DEFAULTS, p, l, crf, m))
    ensures LockedFrom(p, l, crf, m)
  {
    hide FedAt, FedInPi, Common, Pow, Residual;
    forall n: nat | n >= m
      ensures LockedAt(p, l, crf, m, n)
    {
      OrbitsForever(p, l, crf, m, n - m);
      var t := FedAt(DEFAULTS, p, l, crf, n);
      Extent(t.x, Residual(p, t), 495.0, 94.0);
    }
  }

  // The estimate is close enough, and the phase error far enough from a step.
  predicate Graspable(p: Plant, l: Loop) {
    l.servo.phase == Tracking && Abs(l.x) <= FARTHEST && Abs(Residual(p, l)) <= GRASP
  }

  lemma GraspableIsHeld(p: Plant, l: Loop)
    requires Graspable(p, l)
    ensures Held(p, l)
  {
    if Abs(l.x) < 501.0 {
      WindowBelowLid(l.x, Residual(p, l));
    }
  }

  lemma Settle(p: Plant, l: Loop, crf: nat -> nat, from: nat) returns (m: nat)
    requires SteadyPlant(p) && Accurate(p, l, crf, from) && Held(p, FedAt(DEFAULTS, p, l, crf, from))
    ensures m >= from && Orbits(p, FedAt(DEFAULTS, p, l, crf, m))
  {
    hide FedAt, Held, LoopLevel, Offset;
    var steps := Distance(FedAt(DEFAULTS, p, l, crf, from).x);
    var landed := Lands(p, l, crf, from, steps);
    var low := ToLow(p, l, crf, landed, 130_000_000);
    assert AccurateAt(p, l, crf, low);
    LowIsNear(p, FedAt(DEFAULTS, p, l, crf, low), Offset(p, crf, low) as real);
    hide CommonEnergy;
    m := ToOrbit(p, l, crf, low, 421_000);
  }

  lemma LowIsNear(p: Plant, l: Loop, y: real)
    requires Held(p, l) && LoopLevel(p, l) <= LOW && Abs(y) <= 500.0 && Abs(y - l.x) <= 1.0
    ensures Nearing(p, l) && CommonEnergy(p, l) <= REGION
  {
    LowInRegion(l.x, Residual(p, l));
  }

  // The loop locks for good: it tracks from edge `from` on, its phase error never exceeds
  // what it was there or the window, and from edge m on the PI branch has every sample.
  lemma MeasuredLocks(p: Plant, l: Loop, crf: nat -> nat, from: nat) returns (m: nat)
    requires SteadyPlant(p) && Accurate(p, l, crf, from) && Graspable(p, FedAt(DEFAULTS, p, l, crf, from))
    ensures m >= from && LockedFrom(p, l, crf, m)
    ensures forall n: nat :: n >= from ==> StaysNear(p, l, crf, from, n)
  {
    hide FedAt, Held, LockedFrom, Graspable, StaysNear, Accurate, Orbits;
    GraspableIsHeld(p, FedAt(DEFAULTS, p, l, crf, from));
    m := Settle(p, l, crf, from);
    AccurateLater(p, l, crf, from, m);
    OrbitLocks(p, l, crf, m);
    forall n: nat | n >= from
      ensures StaysNear(p, l, crf, from, n)
    {
      HeldStays(p, l, crf, from, n);
    }
  }

  lemma AccurateLater(p: Plant, l: Loop, crf: nat -> nat, from: nat, m: nat)
    requires Accurate(p, l, crf, from) && m >= from
    ensures Accurate(p, l, crf, m)
  {
  }

  lemma HeldStays(p: Plant, l: Loop, crf: nat -> nat, from: nat, n: nat)
    requires SteadyPlant(p) && Accurate(p, l, crf, from) && Held(p, FedAt(DEFAULTS, p, l, crf, from)) && n >= from
    ensures StaysNear(p, l, crf, from, n)
  {
    hide FedAt, Held, Accurate;
    HeldForever(p, l, crf, from, n - from);
    HeldTracks(p, FedAt(DEFAULTS, p, l, crf, n));
  }

  predicate StaysNear(p: Plant, l: Loop, crf: nat -> nat, from: nat, n: nat) {
    var s, t := FedAt(DEFAULTS, p, l, crf, from), FedAt(DEFAULTS, p, l, crf, n);
    t.servo.phase == Tracking && Abs(t.x) <= Farther(Abs(s.x), 506.0)
  }

  lemma HeldTracks(p: Plant, l: Loop)
    requires Held(p, l)
    ensures l.servo.phase == Tracking
  {
  }
}
