/**
 The loop as the listener closes it.

 The servo is given the difference of two integers, the captured edge and the CRF
 timestamp, and not the phase error itself; and the clock's own edge period is only
 nominally that of the timestamps.  One quadratic from each of the two regimes still falls
 at every edge, up to what an error of a nanosecond adds.
 */
module Measured {
  import opened Reals
  import opened PiServo
  import opened ServoLoop
  import opened SlewRegime
  import opened DefaultLoop
  import opened WideLock

  // Edge periods within 2000 ppm of the default.
  const SHORTEST := 0.998 / 300.0
  const LONGEST := 1.002 / 300.0

  // ---- One quadratic for all edge periods -----------------------------------

  predicate Between(u: real, lo: real, hi: real) {
    lo <= u <= hi || hi <= u <= lo
  }

  // Both quadratics are convex in the phase error.
  lemma LevelBetween(u: real, lo: real, hi: real, f: real, bound: real)
    requires Between(u, lo, hi)
    requires Level(lo, f) <= bound && Level(hi, f) <= bound
    ensures Level(u, f) <= bound
  {
    assert Level(lo, f) - Level(u, f) == 0.045 * ((lo - u) * (lo + u - f));
    assert Level(hi, f) - Level(u, f) == 0.045 * ((hi - u) * (hi + u - f));
    OneSide(lo - u, hi - u, lo + u - f, hi + u - f);
    hide Level;
  }

  lemma CommonBetween(u: real, lo: real, hi: real, f: real, bound: real)
    requires Between(u, lo, hi)
    requires Common(lo, f) <= bound && Common(hi, f) <= bound
    ensures Common(u, f) <= bound
  {
    assert Common(lo, f) - Common(u, f) == 0.036 * ((lo - u) * (lo + u - 20.0 / 9.0 * f));
    assert Common(hi, f) - Common(u, f) == 0.036 * ((hi - u) * (hi + u - 20.0 / 9.0 * f));
    OneSide(lo - u, hi - u, lo + u - 20.0 / 9.0 * f, hi + u - 20.0 / 9.0 * f);
    hide Common;
  }

  lemma OneSide(a: real, b: real, s: real, t: real)
    requires (a <= 0.0 <= b || b <= 0.0 <= a) && t - s == b - a
    ensures a * s >= 0.0 || b * t >= 0.0
  {
    if a <= 0.0 <= b {
      if s <= 0.0 {
        NonNegative(-a, -s);
      } else {
        NonNegative(b, t);
      }
    } else {
      if s >= 0.0 {
        NonNegative(a, s);
      } else {
        NonNegative(-b, -t);
      }
    }
  }

  predicate NearPeriod(T: real) {
    SHORTEST <= T <= LONGEST
  }

  predicate DefaultGain(k: real) {
    k == DEFAULTS.ki || k == DEFAULTS.kiFast
  }

  // Both shrink as they do at the default period.
  lemma LevelShrinksNear(T: real, k: real, x: real, e: real)
    requires NearPeriod(T) && DefaultGain(k)
    ensures Level(NextX(T, DEFAULTS.kp, k, x, e), NextE(k, x, e)) <= SHRINK * Level(x, e)
  {
    LevelAtEnds(k, x, e);
    NextBetween(T, k, x, e);
    hide Level, NextX, NextE;
    LevelBetween(NextX(T, DEFAULTS.kp, k, x, e), NextX(SHORTEST, DEFAULTS.kp, k, x, e),
                 NextX(LONGEST, DEFAULTS.kp, k, x, e), NextE(k, x, e), SHRINK * Level(x, e));
  }

  lemma NextBetween(T: real, k: real, x: real, e: real)
    requires NearPeriod(T)
    ensures Between(NextX(T, DEFAULTS.kp, k, x, e), NextX(SHORTEST, DEFAULTS.kp, k, x, e),
                    NextX(LONGEST, DEFAULTS.kp, k, x, e))
  {
    var v := e - (DEFAULTS.kp + k) * x;
    if v >= 0.0 {
      NonNegative(T - SHORTEST, v);
      NonNegative(LONGEST - T, v);
    } else {
      NonNegative(T - SHORTEST, -v);
      NonNegative(LONGEST - T, -v);
    }
  }

  lemma LevelAtEnds(k: real, x: real, e: real)
    requires DefaultGain(k)
    ensures Level(NextX(SHORTEST, DEFAULTS.kp, k, x, e), NextE(k, x, e)) <= SHRINK * Level(x, e)
    ensures Level(NextX(LONGEST, DEFAULTS.kp, k, x, e), NextE(k, x, e)) <= SHRINK * Level(x, e)
  {
    LevelIs(x, e);
    LevelIs(NextX(SHORTEST, DEFAULTS.kp, k, x, e), NextE(k, x, e));
    LevelIs(NextX(LONGEST, DEFAULTS.kp, k, x, e), NextE(k, x, e));
    FormAtEnds(0.045, -0.0225, SHRINK, k, x, e);
    hide Level, Form, NextX, NextE;
  }

  lemma FormAtEnds(al: real, b: real, keep: real, k: real, x: real, e: real)
    requires DefaultGain(k)
    requires (al == 0.045 && b == -0.0225 && keep == SHRINK) || (al == 0.036 && b == -0.04 && keep == CONTRACTION)
    ensures Form(al, b, NextX(SHORTEST, DEFAULTS.kp, k, x, e), NextE(k, x, e)) <= keep * Form(al, b, x, e)
    ensures Form(al, b, NextX(LONGEST, DEFAULTS.kp, k, x, e), NextE(k, x, e)) <= keep * Form(al, b, x, e)
  {
    ShrinkingAtEnds();
    hide Form, Shrinking, NextX, NextE;
    FormShrinks(al, b, keep, SHORTEST, DEFAULTS.kp, k, x, e);
    FormShrinks(al, b, keep, LONGEST, DEFAULTS.kp, k, x, e);
  }

  lemma ShrinkingAtEnds()
    ensures Shrinking(0.045, -0.0225, SHRINK, SHORTEST, DEFAULTS.kp, DEFAULTS.ki)
    ensures Shrinking(0.045, -0.0225, SHRINK, LONGEST, DEFAULTS.kp, DEFAULTS.ki)
    ensures Shrinking(0.045, -0.0225, SHRINK, SHORTEST, DEFAULTS.kp, DEFAULTS.kiFast)
    ensures Shrinking(0.045, -0.0225, SHRINK, LONGEST, DEFAULTS.kp, DEFAULTS.kiFast)
    ensures Shrinking(0.036, -0.04, CONTRACTION, SHORTEST, DEFAULTS.kp, DEFAULTS.ki)
    ensures Shrinking(0.036, -0.04, CONTRACTION, LONGEST, DEFAULTS.kp, DEFAULTS.ki)
    ensures Shrinking(0.036, -0.04, CONTRACTION, SHORTEST, DEFAULTS.kp, DEFAULTS.kiFast)
    ensures Shrinking(0.036, -0.04, CONTRACTION, LONGEST, DEFAULTS.kp, DEFAULTS.kiFast)
  {
  }

  lemma CommonContractsNear(T: real, k: real, x: real, e: real)
    requires NearPeriod(T) && DefaultGain(k)
    ensures Common(NextX(T, DEFAULTS.kp, k, x, e), NextE(k, x, e)) <= CONTRACTION * Common(x, e)
  {
    CommonAtEnds(k, x, e);
    NextBetween(T, k, x, e);
    hide Common, NextX, NextE;
    CommonBetween(NextX(T, DEFAULTS.kp, k, x, e), NextX(SHORTEST, DEFAULTS.kp, k, x, e),
                  NextX(LONGEST, DEFAULTS.kp, k, x, e), NextE(k, x, e), CONTRACTION * Common(x, e));
  }

  lemma CommonAtEnds(k: real, x: real, e: real)
    requires DefaultGain(k)
    ensures Common(NextX(SHORTEST, DEFAULTS.kp, k, x, e), NextE(k, x, e)) <= CONTRACTION * Common(x, e)
    ensures Common(NextX(LONGEST, DEFAULTS.kp, k, x, e), NextE(k, x, e)) <= CONTRACTION * Common(x, e)
  {
    CommonIs(x, e);
    CommonIs(NextX(SHORTEST, DEFAULTS.kp, k, x, e), NextE(k, x, e));
    CommonIs(NextX(LONGEST, DEFAULTS.kp, k, x, e), NextE(k, x, e));
    FormAtEnds(0.036, -0.04, CONTRACTION, k, x, e);
    hide Common, Form, NextX, NextE;
  }

  // ---- What the error adds --------------------------------------------------

  // An edge of the PI branch that is given y for the phase error x.
  function FedX(T: real, k: real, x: real, y: real, e: real): real {
    x + T * (e - (DEFAULTS.kp + k) * y)
  }

  // The quadratic of a sum, with most of the weight on the first.
  lemma LevelSum(px: real, pe: real, qx: real, qe: real)
    ensures Level(px + qx, pe + qe) <= 1.000003 * Level(px, pe) + (1.0 + 1.0 / 0.000003) * Level(qx, qe)
  {
    LevelSign(0.000003 * px - qx, 0.000003 * pe - qe);
    assert 1.000003 * Level(px, pe) + (1.0 + 1.0 / 0.000003) * Level(qx, qe) - Level(px + qx, pe + qe)
      == 1.0 / 0.000003 * Level(0.000003 * px - qx, 0.000003 * pe - qe);
  }

  lemma CommonSum(px: real, pe: real, qx: real, qe: real)
    ensures Common(px + qx, pe + qe) <= 1.00001 * Common(px, pe) + 100_001.0 * Common(qx, qe)
  {
    CommonSign(0.00001 * px - qx, 0.00001 * pe - qe);
    assert 1.00001 * Common(px, pe) + 100_001.0 * Common(qx, qe) - Common(px + qx, pe + qe)
      == 100_000.0 * Common(0.00001 * px - qx, 0.00001 * pe - qe);
  }

  lemma SmallForms(qx: real, qe: real)
    requires Abs(qx) <= 0.00134 && Abs(qe) <= 0.0003 && qx * qe >= 0.0
    ensures Level(qx, qe) <= 0.000000172
    ensures Common(qx, qe) <= 0.000000155
  {
    var xx := SquareWithin(qx, 0.00134);
    var ee := SquareWithin(qe, 0.0003);
    var xe := qx * qe;
    assert Level(qx, qe) == 0.045 * xx - 0.045 * xe + ee;
    assert Common(qx, qe) == 0.036 * xx - 0.08 * xe + ee;
    hide Level, Common;
  }

  lemma SquareWithin(q: real, m: real) returns (qq: real)
    requires Abs(q) <= m
    ensures qq == q * q <= m * m
  {
    qq := q * q;
    NonNegative(m - q, m + q);
    assert (m - q) * (m + q) == m * m - q * q;
  }

  // What the error of the sample adds to both coordinates.
  lemma ErrorIs(T: real, k: real, x: real, e: real, d: real) returns (qx: real, qe: real)
    requires NearPeriod(T) && DefaultGain(k) && Abs(d) <= 1.0
    ensures FedX(T, k, x, x + d, e) == NextX(T, DEFAULTS.kp, k, x, e) + qx
    ensures NextE(k, x + d, e) == NextE(k, x, e) + qe
    ensures Abs(qx) <= 0.00134 && Abs(qe) <= 0.0003 && qx * qe >= 0.0
  {
    var g := T * (DEFAULTS.kp + k);
    assert 0.0 <= g <= 0.00134;
    qx, qe := -(g * d), -(k * d);
    assert T * (e - (DEFAULTS.kp + k) * (x + d)) == T * (e - (DEFAULTS.kp + k) * x) - g * d;
    var gd := Scaled(g, d, 1.0);
    var kd := Scaled(k, d, 1.0);
    var dd := ScaledSquare(1.0, d);
    NonNegative(g * k, d * d);
  }

  lemma LevelEdge(T: real, k: real, x: real, y: real, e: real)
    requires NearPeriod(T) && DefaultGain(k) && Abs(y - x) <= 1.0
    ensures Level(FedX(T, k, x, y, e), NextE(k, y, e)) <= 0.999997 * Level(x, e) + 0.0575
  {
    var qx, qe := ErrorIs(T, k, x, e, y - x);
    assert x + (y - x) == y;
    var px, pe := NextX(T, DEFAULTS.kp, k, x, e), NextE(k, x, e);
    LevelShrinksNear(T, k, x, e);
    LevelSum(px, pe, qx, qe);
    SmallForms(qx, qe);
    LevelSign(x, e);
    hide Level, FedX, NextX, NextE;
  }

  lemma CommonEdge(T: real, k: real, x: real, y: real, e: real)
    requires NearPeriod(T) && DefaultGain(k) && Abs(y - x) <= 1.0
    ensures Common(FedX(T, k, x, y, e), NextE(k, y, e)) <= 0.99999 * Common(x, e) + 0.0156
  {
    var qx, qe := ErrorIs(T, k, x, e, y - x);
    assert x + (y - x) == y;
    var px, pe := NextX(T, DEFAULTS.kp, k, x, e), NextE(k, x, e);
    CommonContractsNear(T, k, x, e);
    CommonSum(px, pe, qx, qe);
    SmallForms(qx, qe);
    CommonSign(x, e);
    hide Common, FedX, NextX, NextE;
  }

  // ---- An edge of the slewing branch ----------------------------------------

  // How the correction overcomes the true drift, seen from the side the sample is on.
  lemma SlewPull(a: real, e: real, y: real)
    requires Abs(y) > 500.0 && Abs(e) <= 990.0 && Abs(a) <= WIDE_DRIFT
    ensures var pull := Toward(y, Clamp(2.0 * y + (a - e), 2_000_000.0) - a);
      && 10.0 <= pull <= 2.0 * Abs(y) - Toward(y, e)
      && (Abs(e) <= 197.0 ==> pull >= 800.0)
  {
  }

  // Such an edge takes x to x - T * pull.
  lemma SlewFalls(T: real, x: real, y: real, e: real, pull: real) returns (z: real)
    requires NearPeriod(T) && Abs(y - x) <= 1.0 && y > 500.0 && Abs(e) <= 990.0
    requires 10.0 <= pull <= 2.0 * y - e
    ensures z == x - Times(T, pull)
    ensures
      && 0.0 < z <= x - 0.033
      && Level(z, e) <= Level(x, e)
      && (Abs(e) <= 197.0 && pull >= 800.0 ==> Common(z, e) <= Common(x, e) - 0.07)
  {
    var fall := T * pull;
    NonNegative(T - SHORTEST, pull);
    NonNegative(LONGEST - T, pull);
    assert SHORTEST * pull <= fall <= LONGEST * pull;
    z := x - fall;
    assert Level(x, e) - Level(z, e) == 0.045 * (fall * (x + z - e));
    NonNegative(fall, x + z - e);
    if Abs(e) <= 197.0 && pull >= 800.0 {
      var w := 0.036 * (x + z) - 0.08 * e;
      assert Common(x, e) - Common(z, e) == fall * w;
      NonNegative(fall - 2.6, w - 1.0);
      assert (fall - 2.6) * (w - 1.0) == fall * w - fall - 2.6 * w + 2.6;
    }
  }

  // ---- The loop -------------------------------------------------------------

  // What the servo is given at edge n: the captured edge minus the CRF timestamp.
  function Offset(p: Plant, crf: nat -> nat, n: nat): int {
    p.stamp(n) - crf(n)
  }

  function Fed(c: Config, p: Plant, l: Loop, offset: real, local: nat): Loop {
    var o := Step(c, l.servo, offset, local);
    var applied := if o.report == Locked then o.ppb else l.applied;
    Loop(o.next, l.x + p.T * (p.a - applied), applied)
  }

  // The loop after n edges.
  function FedAt(c: Config, p: Plant, l: Loop, crf: nat -> nat, n: nat): Loop {
    if n == 0 then l
    else Fed(c, p, FedAt(c, p, l, crf, n - 1), Offset(p, crf, n - 1) as real, p.stamp(n - 1))
  }

  lemma FedNext(c: Config, p: Plant, l: Loop, crf: nat -> nat, n: nat)
    ensures FedAt(c, p, l, crf, n + 1)
      == Fed(c, p, FedAt(c, p, l, crf, n), Offset(p, crf, n) as real, p.stamp(n))
  {
    hide Fed, Offset;
  }

  // Given the phase error itself it is the loop of `ServoLoop`.
  lemma FedExactly(c: Config, p: Plant, l: Loop, local: nat)
    ensures Fed(c, p, l, l.x, local) == Tick(c, p, l, local)
  {
  }

  predicate SteadyPlant(p: Plant) {
    NearPeriod(p.T) && Abs(p.a) <= WIDE_DRIFT
  }

  // The loop as the servo sees it, and whether the PI branch handles the next sample.
  predicate FedInPi(l: Loop, y: real) {
    InPi(DEFAULTS, l.(x := y))
  }

  lemma FedPi(p: Plant, l: Loop, y: real, local: nat)
    requires SteadyPlant(p) && l.servo.phase == Tracking && Abs(y) <= 500.0 && Abs(Residual(p, l)) <= 1000.0
    ensures FedInPi(l, y)
    ensures var m, k := Fed(DEFAULTS, p, l, y, local), ActiveKi(DEFAULTS, l.servo);
      && DefaultGain(k)
      && m.servo.phase == Tracking
      && m.x == FedX(p.T, k, l.x, y, Residual(p, l))
      && Residual(p, m) == NextE(k, y, Residual(p, l))
  {
    var k := ActiveKi(DEFAULTS, l.servo);
    ExtentInPi(DEFAULTS, p, l.(x := y), k, 1000.0);
    var raw := RawPpb(DEFAULTS, l.servo, y);
    assert p.a - raw == Residual(p, l) - (DEFAULTS.kp + k) * y;
  }

  lemma FedSlew(p: Plant, l: Loop, y: real, local: nat)
    requires l.servo.phase == Tracking && 500.0 < Abs(y) <= DEFAULTS.stepThreshold
    ensures var m := Fed(DEFAULTS, p, l, y, local);
      && m.servo.phase == Tracking
      && m.x == l.x - Times(p.T, Clamp(2.0 * y + (p.a - Residual(p, l)), 2_000_000.0) - p.a)
      && Residual(p, m) == Residual(p, l)
  {
    assert p.a - Residual(p, l) == l.servo.drift;
    var ppb := Clamp(2.0 * y + l.servo.drift, 2_000_000.0);
    assert p.T * (p.a - ppb) == -(p.T * (ppb - p.a));
  }

  // Phase errors that the error of a sample does not turn into a step.
  const FARTHEST := 99_999_999.0

  // Levels below this bound every estimate by 990 ppb.
  const LID := 969_000.0

  // An estimate this close is below the lid anywhere in the window.
  const GRASP := 967.0

  predicate Held(p: Plant, l: Loop) {
    && l.servo.phase == Tracking
    && Abs(l.x) <= FARTHEST
    && (LoopLevel(p, l) <= LID || (Abs(l.x) >= 501.0 && Abs(Residual(p, l)) <= GRASP))
  }

  lemma BelowLid(x: real, e: real)
    requires Level(x, e) <= LID
    ensures Abs(e) <= 990.0
  {
    if Abs(e) > 990.0 {
      AboveLid(x, e);
    }
  }

  lemma AboveLid(x: real, e: real)
    requires Abs(e) > 990.0
    ensures Level(x, e) > LID
  {
    var y := ScaledSquare(0.045, x - e / 2.0);
    assert Level(x, e) == y + 0.98875 * (e * e);
    NonNegative(Abs(e) - 990.0, Abs(e) + 990.0);
    assert (Abs(e) - 990.0) * (Abs(e) + 990.0) == e * e - 980100.0;
  }

  lemma WindowBelowLid(x: real, e: real)
    requires Abs(x) <= 501.0 && Abs(e) <= GRASP
    ensures Level(x, e) <= LID
  {
    var xx := SquareWithin(x, 501.0);
    var ee := SquareWithin(e, 967.0);
    var xe := Scaled(Abs(x), e, 967.0);
    assert Abs(x * e) == Abs(xe) <= 484467.0;
    assert Level(x, e) == 0.045 * xx - 0.045 * (x * e) + ee;
    hide Level;
  }

  // One edge, in whichever branch.
  lemma HeldEdge(p: Plant, l: Loop, y: real, local: nat)
    requires SteadyPlant(p) && Held(p, l) && Abs(y - l.x) <= 1.0
    ensures var m := Fed(DEFAULTS, p, l, y, local);
      && Held(p, m)
      && (if Abs(y) <= 500.0 then
            && LoopLevel(p, l) <= LID && Abs(m.x) <= 506.0
            && LoopLevel(p, m) <= 0.999997 * LoopLevel(p, l) + 0.0575
          else
            && Abs(m.x) <= Abs(l.x) - 0.033 && LoopLevel(p, m) <= LoopLevel(p, l))
  {
    HeldWithin(p, l, y);
    if Abs(y) <= 500.0 {
      HeldPi(p, l, y, local);
    } else {
      HeldSlew(p, l, y, local);
    }
  }

  lemma HeldWithin(p: Plant, l: Loop, y: real)
    requires Held(p, l) && Abs(y - l.x) <= 1.0
    ensures Abs(Residual(p, l)) <= 990.0
    ensures Abs(y) <= 500.0 ==> LoopLevel(p, l) <= LID
  {
    var x, e := l.x, Residual(p, l);
    hide Level, Residual;
    if Level(x, e) <= LID {
      BelowLid(x, e);
    } else if Abs(x) <= 501.0 {
      WindowBelowLid(x, e);
    }
  }

  lemma HeldPi(p: Plant, l: Loop, y: real, local: nat)
    requires SteadyPlant(p) && l.servo.phase == Tracking && Abs(y) <= 500.0 && Abs(y - l.x) <= 1.0
    requires LoopLevel(p, l) <= LID && Abs(Residual(p, l)) <= 990.0
    ensures var m := Fed(DEFAULTS, p, l, y, local);
      && Held(p, m) && Abs(m.x) <= 506.0
      && LoopLevel(p, m) <= 0.999997 * LoopLevel(p, l) + 0.0575
  {
    var k, x, e := ActiveKi(DEFAULTS, l.servo), l.x, Residual(p, l);
    FedPi(p, l, y, local);
    LevelEdge(p.T, k, x, y, e);
    LittleMove(p.T, k, x, y, e);
    hide Fed, Residual, Level, FedX, NextE;
  }

  lemma LittleMove(T: real, k: real, x: real, y: real, e: real)
    requires NearPeriod(T) && DefaultGain(k) && Abs(y) <= 500.0 && Abs(y - x) <= 1.0 && Abs(e) <= 990.0
    ensures Abs(FedX(T, k, x, y, e)) <= 506.0
  {
    var v := e - (DEFAULTS.kp + k) * y;
    Rate(k, y, e);
    var step := Scaled(T, v, 1191.0);
    NonNegative(LONGEST - T, 1191.0);
    assert FedX(T, k, x, y, e) == x + step;
    hide FedX;
  }

  lemma Rate(k: real, y: real, e: real)
    requires DefaultGain(k) && Abs(y) <= 500.0 && Abs(e) <= 990.0
    ensures Abs(e - (DEFAULTS.kp + k) * y) <= 1191.0
  {
  }

  lemma HeldSlew(p: Plant, l: Loop, y: real, local: nat)
    requires SteadyPlant(p) && Held(p, l) && Abs(y) > 500.0 && Abs(y - l.x) <= 1.0
    requires Abs(Residual(p, l)) <= 990.0
    ensures var m := Fed(DEFAULTS, p, l, y, local);
      && Held(p, m) && Residual(p, m) == Residual(p, l)
      && Abs(m.x) <= Abs(l.x) - 0.033 && LoopLevel(p, m) <= LoopLevel(p, l)
      && (Abs(Residual(p, l)) <= 197.0 ==> CommonEnergy(p, m) <= CommonEnergy(p, l) - 0.07)
  {
    var m := Fed(DEFAULTS, p, l, y, local);
    var x, e := l.x, Residual(p, l);
    FedSlew(p, l, y, local);
    SlewEdge(p.T, p.a, x, y, e, m.x);
    hide Fed, Residual, Level, Common, Clamp, Times;
    if Abs(m.x) < 501.0 && Level(x, e) > LID {
      WindowBelowLid(m.x, e);
    }
  }

  lemma SlewEdge(T: real, a: real, x: real, y: real, e: real, z: real)
    requires NearPeriod(T) && Abs(a) <= WIDE_DRIFT
    requires Abs(y) > 500.0 && Abs(y - x) <= 1.0 && Abs(e) <= 990.0
    requires z == x - Times(T, Clamp(2.0 * y + (a - e), 2_000_000.0) - a)
    ensures Abs(z) <= Abs(x) - 0.033 && Level(z, e) <= Level(x, e)
    ensures Abs(e) <= 197.0 ==> Common(z, e) <= Common(x, e) - 0.07
  {
    SlewPull(a, e, y);
    var pull := Clamp(2.0 * y + (a - e), 2_000_000.0) - a;
    hide Level, Common, Clamp, Times;
    if y > 0.0 {
      var to := SlewFalls(T, x, y, e, pull);
    } else {
      TimesNegated(T, pull);
      var to := SlewFalls(T, -x, -y, -e, -pull);
      assert to == -z;
      LevelEven(x, e);
      LevelEven(z, e);
      CommonEven(x, e);
      CommonEven(z, e);
    }
  }

  lemma CommonEven(x: real, e: real)
    ensures Common(-x, -e) == Common(x, e)
  {
  }
}
