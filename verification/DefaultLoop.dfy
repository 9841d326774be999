/**
 The loop with the default tuning at the default edge rate of 300 Hz.

 The integral gain changes once the fast samples are used up, and again when the
 32-bit sample counter wraps.  One energy decreases under both gains, so neither
 change matters: the loop contracts at every edge, for ever.
 */
module DefaultLoop {
  import opened Reals
  import opened PiServo
  import opened ServoLoop
  import opened SlewRegime

  const EDGE_PERIOD := 1.0 / 300.0

  // Energies up to here keep the phase error inside the PI window.
  const ELLIPSE := 8600.0

  // What one edge leaves of the energy, at most.
  const CONTRACTION := 0.99998

  // True drifts that the clamp leaves room to correct with a phase error on top.
  const MAX_DRIFT := 1_999_700.0

  function Common(x: real, e: real): real {
    0.036 * (x * x) - 0.08 * (x * e) + e * e
  }

  function CommonEnergy(p: Plant, l: Loop): real {
    Common(l.x, Residual(p, l))
  }

  lemma QuadraticSign(A: real, B: real, C: real, x: real, e: real)
    requires C > 0.0 && A * C > B * B
    ensures A * (x * x) + 2.0 * B * (x * e) + C * (e * e) >= 0.0
  {
    var form := A * (x * x) + 2.0 * B * (x * e) + C * (e * e);
    var y := ScaledSquare(1.0, C * e + B * x);
    var z := ScaledSquare(A * C - B * B, x);
    assert C * form == y + z;
    if form < 0.0 {
      var r := Product(C, -form);
      assert false;
    }
  }

  // A quadratic form of phase error and residual.
  function Form(al: real, b: real, x: real, e: real): real {
    al * (x * x) + 2.0 * b * (x * e) + e * e
  }

  // What an edge of the PI branch takes out of `keep` times the form is again one; these
  // are its coefficients, with g the part of the phase error that the edge leaves.
  function LossXX(al: real, b: real, keep: real, g: real, k: real): real {
    keep * al - (al * (g * g) - 2.0 * b * (g * k) + k * k)
  }

  function LossXE(al: real, b: real, keep: real, g: real, T: real, k: real): real {
    keep * b - (al * (g * T) + b * (g - T * k) - k)
  }

  function LossEE(al: real, b: real, keep: real, T: real): real {
    keep - (al * (T * T) + 2.0 * b * T + 1.0)
  }

  lemma FormLoss(al: real, b: real, keep: real, T: real, g: real, k: real, x: real, e: real, y: real)
    requires y == g * x + T * e
    ensures keep * Form(al, b, x, e) - Form(al, b, y, e - k * x)
      == LossXX(al, b, keep, g, k) * (x * x) + 2.0 * LossXE(al, b, keep, g, T, k) * (x * e)
         + LossEE(al, b, keep, T) * (e * e)
  {
  }

  // The form falls to `keep` of what it was, at the least, when that form is positive.
  predicate Shrinking(al: real, b: real, keep: real, T: real, kp: real, k: real) {
    var g := 1.0 - T * (kp + k);
    && LossEE(al, b, keep, T) > 0.0
    && LossXX(al, b, keep, g, k) * LossEE(al, b, keep, T)
         > LossXE(al, b, keep, g, T, k) * LossXE(al, b, keep, g, T, k)
  }

  lemma FormShrinks(al: real, b: real, keep: real, T: real, kp: real, k: real, x: real, e: real)
    requires Shrinking(al, b, keep, T, kp, k)
    ensures Form(al, b, NextX(T, kp, k, x, e), NextE(k, x, e)) <= keep * Form(al, b, x, e)
  {
    var g := 1.0 - T * (kp + k);
    NextIs(T, kp, k, x, e, g);
    FormLoss(al, b, keep, T, g, k, x, e, NextX(T, kp, k, x, e));
    hide Form, LossXX, LossXE, LossEE, NextX;
    QuadraticSign(LossXX(al, b, keep, g, k), LossXE(al, b, keep, g, T, k), LossEE(al, b, keep, T), x, e);
  }

  lemma NextIs(T: real, kp: real, k: real, x: real, e: real, g: real)
    requires g == 1.0 - T * (kp + k)
    ensures NextX(T, kp, k, x, e) == g * x + T * e
  {
  }

  lemma Contracts(k: real, x: real, e: real)
    requires k == DEFAULTS.ki || k == DEFAULTS.kiFast
    ensures Common(NextX(EDGE_PERIOD, DEFAULTS.kp, k, x, e), NextE(k, x, e)) <= CONTRACTION * Common(x, e)
  {
    CommonShrinks(k, x, e);
    CommonIs(x, e);
    CommonIs(NextX(EDGE_PERIOD, DEFAULTS.kp, k, x, e), NextE(k, x, e));
    hide Common, Form, NextX, NextE;
  }

  lemma CommonIs(x: real, e: real)
    ensures Common(x, e) == Form(0.036, -0.04, x, e)
  {
  }

  lemma CommonShrinks(k: real, x: real, e: real)
    requires k == DEFAULTS.ki || k == DEFAULTS.kiFast
    ensures Form(0.036, -0.04, NextX(EDGE_PERIOD, DEFAULTS.kp, k, x, e), NextE(k, x, e))
      <= CONTRACTION * Form(0.036, -0.04, x, e)
  {
    if k == DEFAULTS.ki {
      FormShrinks(0.036, -0.04, CONTRACTION, EDGE_PERIOD, DEFAULTS.kp, DEFAULTS.ki, x, e);
    } else {
      FormShrinks(0.036, -0.04, CONTRACTION, EDGE_PERIOD, DEFAULTS.kp, DEFAULTS.kiFast, x, e);
    }
  }

  lemma CommonExtent(x: real, e: real)
    requires Common(x, e) <= ELLIPSE
    ensures Abs(x) <= 500.0 && Abs(e) <= 95.0
  {
    var ahead := ScaledSquare(1.0, e - 0.04 * x);
    assert Common(x, e) == 0.0344 * (x * x) + ahead;
    SquareRoot(0.0344, x, 500.0);
    var across := ScaledSquare(0.036, x - 10.0 / 9.0 * e);
    assert Common(x, e) == across + 43.0 / 45.0 * (e * e);
    SquareRoot(43.0 / 45.0, e, 95.0);
  }

  lemma CommonSign(x: real, e: real)
    ensures Common(x, e) >= 0.0
  {
    QuadraticSign(0.036, -0.04, 1.0, x, e);
  }

  predicate Steerable(p: Plant) {
    p.T == EDGE_PERIOD && Abs(p.a) <= MAX_DRIFT
  }

  // A loop tracking with phase error and residual small enough for the ellipse.
  predicate Settling(p: Plant, l: Loop) {
    l.servo.phase == Tracking && CommonEnergy(p, l) <= ELLIPSE
  }

  lemma DefaultInPi(p: Plant, l: Loop)
    requires Abs(p.a) <= MAX_DRIFT
    requires l.servo.phase == Tracking && Abs(l.x) <= 500.0 && Abs(Residual(p, l)) <= 95.0
    ensures InPi(DEFAULTS, l)
  {
    ExtentInPi(DEFAULTS, p, l, ActiveKi(DEFAULTS, l.servo), 95.0);
  }

  // One edge inside the ellipse.
  lemma SettlingEdge(p: Plant, l: Loop, local: nat)
    requires Steerable(p) && Settling(p, l)
    ensures InPi(DEFAULTS, l)
    ensures var m := Tick(DEFAULTS, p, l, local);
      Settling(p, m) && CommonEnergy(p, m) <= CONTRACTION * CommonEnergy(p, l)
  {
    CommonExtent(l.x, Residual(p, l));
    CommonSign(l.x, Residual(p, l));
    DefaultInPi(p, l);
    hide Tick, Step, InPi, Common, NextX, NextE, Residual;
    PiTick(DEFAULTS, p, l, local, ActiveKi(DEFAULTS, l.servo));
    Contracts(ActiveKi(DEFAULTS, l.servo), l.x, Residual(p, l));
  }

  function Pow(r: real, n: nat): real {
    if n == 0 then 1.0 else r * Pow(r, n - 1)
  }

  // Once in the ellipse at edge `from`, every later sample is handled by the PI
  // branch and the energy shrinks geometrically, whichever gain is in force.
  lemma {:induction false} SettlesForever(p: Plant, l: Loop, from: nat, n: nat)
    requires Steerable(p) && Settling(p, LoopAt(DEFAULTS, p, l, from))
    ensures var m := LoopAt(DEFAULTS, p, l, from + n);
      && Settling(p, m)
      && InPi(DEFAULTS, m)
      && CommonEnergy(p, m) <= Pow(CONTRACTION, n) * ELLIPSE
  {
    hide Tick, Step, Common, InPi, Residual;
    var m := LoopAt(DEFAULTS, p, l, from + n);
    if n > 0 {
      var before := LoopAt(DEFAULTS, p, l, from + n - 1);
      SettlesForever(p, l, from, n - 1);
      SettlingEdge(p, before, p.stamp(from + n - 1));
      Monotone(CONTRACTION, CommonEnergy(p, before), Pow(CONTRACTION, n - 1) * ELLIPSE);
    }
    SettlingEdge(p, m, p.stamp(from + n));
  }

  // ---- From the edge of the PI window into the ellipse ----------------------

  // Every edge in the outer band of the window takes this much off the phase
  // error, and moves the residual by no more than the second amount.
  const BAND_FALL := 0.56
  const BAND_DRIFT := 0.15
  const BAND_EDGES := 72

  predicate InBand(p: Plant, l: Loop, i: nat) {
    && i <= BAND_EDGES
    && l.servo.phase == Tracking
    && Abs(l.x) <= 500.0 - BAND_FALL * i as real
    && Abs(Residual(p, l)) <= 5.0 + BAND_DRIFT * i as real
  }

  lemma BandEdge(k: real, x: real, e: real)
    requires k == DEFAULTS.ki || k == DEFAULTS.kiFast
    requires 460.0 < Abs(x) <= 500.0 && Abs(e) <= 15.8
    ensures Abs(NextX(EDGE_PERIOD, DEFAULTS.kp, k, x, e)) <= Abs(x) - BAND_FALL
    ensures Abs(NextE(k, x, e)) <= Abs(e) + BAND_DRIFT
  {
    if k == DEFAULTS.ki {
      assert NextX(EDGE_PERIOD, DEFAULTS.kp, k, x, e) == x + 1.0 / 300.0 * (e - 0.40005 * x);
      assert NextE(k, x, e) == e - 0.00005 * x;
    } else {
      assert NextX(EDGE_PERIOD, DEFAULTS.kp, k, x, e) == x + 1.0 / 300.0 * (e - 0.4003 * x);
      assert NextE(k, x, e) == e - 0.0003 * x;
    }
  }

  lemma CoreInEllipse(x: real, e: real)
    requires Abs(x) <= 460.0 && Abs(e) <= 15.8
    ensures Common(x, e) <= ELLIPSE
  {
    var xx := Scaled(Abs(x), x, 460.0);
    var xe := Scaled(Abs(x), e, 15.8);
    var ee := Scaled(Abs(e), e, 15.8);
    assert Abs(x) * 460.0 <= 460.0 * 460.0;
    assert Abs(x) * 15.8 <= 460.0 * 15.8;
    assert Abs(e) * 15.8 <= 15.8 * 15.8;
    assert Abs(xx) == x * x && Abs(xe) == Abs(x * e) && Abs(ee) == e * e;
  }

  lemma {:induction false} ThroughBand(p: Plant, l: Loop, from: nat, i: nat) returns (m: nat)
    requires Steerable(p) && InBand(p, LoopAt(DEFAULTS, p, l, from), i)
    ensures from <= m <= from + BAND_EDGES - i
    ensures forall j :: from <= j < m ==> InPi(DEFAULTS, LoopAt(DEFAULTS, p, l, j))
    ensures Settling(p, LoopAt(DEFAULTS, p, l, m))
    decreases BAND_EDGES - i
  {
    hide Tick, Step, Common, InPi, Residual, NextX, NextE;
    var start := LoopAt(DEFAULTS, p, l, from);
    if Abs(start.x) <= 460.0 {
      CoreInEllipse(start.x, Residual(p, start));
      m := from;
    } else {
      var k := ActiveKi(DEFAULTS, start.servo);
      DefaultInPi(p, start);
      PiTick(DEFAULTS, p, start, p.stamp(from), k);
      BandEdge(k, start.x, Residual(p, start));
      m := ThroughBand(p, l, from + 1, i + 1);
    }
  }

  // ---- From anywhere --------------------------------------------------------

  // A tracking loop whose drift estimate is within 5 ppb of the true drift.
  predicate Seeded(p: Plant, l: Loop) {
    && l.servo.phase == Tracking
    && !IsStep(DEFAULTS, l.x)
    && Abs(Residual(p, l)) <= 5.0
  }

  // One edge lowers a slewing phase error by at least a nanosecond.
  lemma SeededFall(p: Plant, l: Loop)
    requires Steerable(p) && Seeded(p, l)
    ensures Recoverable(DEFAULTS, p, l.x, Residual(p, l))
    ensures Fall(DEFAULTS, p, l.x, Residual(p, l)) >= 1.0
  {
    WithinAuthority(DEFAULTS, p, l.x, Residual(p, l));
  }

  // From any phase error that is not a step, down to the PI window.
  lemma ReachesWindow(p: Plant, l: Loop) returns (m: nat)
    requires Steerable(p) && Seeded(p, l)
    ensures m as real <= Abs(l.x) + 1.0
    ensures forall j :: 0 <= j < m ==> FallsAt(DEFAULTS, p, l, j)
    ensures InBand(p, LoopAt(DEFAULTS, p, l, m), 0)
  {
    SeededFall(p, l);
    var fall := Fall(DEFAULTS, p, l.x, Residual(p, l));
    var budget := Budget(Abs(l.x), fall);
    assert LoopAt(DEFAULTS, p, l, 0) == l;
    hide Tick, Step, Fall, Recoverable;
    m := Escapes(DEFAULTS, p, l, 0, budget, fall);
    SameResidual(p, l, LoopAt(DEFAULTS, p, l, m));
  }

  // With a frequency seed good to 5 ppb the default loop locks for good, from
  // any phase error that is not a step, within one edge a nanosecond and the 72
  // edges of the outer band.  It tracks all the way; from edge m on the PI branch
  // handles every sample and the energy shrinks geometrically.
  lemma SeededLock(p: Plant, l: Loop) returns (m: nat)
    requires Steerable(p) && Seeded(p, l)
    ensures m as real <= Abs(l.x) + 1.0 + BAND_EDGES as real
    ensures forall n: nat :: LoopAt(DEFAULTS, p, l, n).servo.phase == Tracking
    ensures forall n: nat :: n >= m ==> InPi(DEFAULTS, LoopAt(DEFAULTS, p, l, n))
    ensures forall n: nat :: n >= m ==>
      CommonEnergy(p, LoopAt(DEFAULTS, p, l, n)) <= Pow(CONTRACTION, n - m) * ELLIPSE
  {
    hide Tick, Step, Common, Residual, IsStep, IsLarge, Clamped;
    var reached := ReachesWindow(p, l);
    m := ThroughBand(p, l, reached, 0);
    forall n: nat
      ensures LoopAt(DEFAULTS, p, l, n).servo.phase == Tracking
      ensures n >= m ==> InPi(DEFAULTS, LoopAt(DEFAULTS, p, l, n))
      ensures n >= m ==>
        CommonEnergy(p, LoopAt(DEFAULTS, p, l, n)) <= Pow(CONTRACTION, n - m) * ELLIPSE
    {
      if n >= m {
        SettlesForever(p, l, m, n - m);
      } else if n < reached {
        assert FallsAt(DEFAULTS, p, l, n);
      }
    }
  }

  function Budget(distance: real, fall: real): (n: nat)
    requires distance >= 0.0 && fall >= 1.0
    ensures distance <= Covered(n, fall)
    ensures n as real <= distance + 1.0
  {
    var n := distance.Floor + 1;
    assert n as real * 1.0 <= n as real * fall;
    n
  }

  // The bound on the energy goes to zero, so phase error and residual do too.
  lemma {:induction false} PowFalls(r: real, d: real, n: nat)
    requires 0.0 < r && d >= 0.0 && r * (1.0 + d) <= 1.0
    ensures Pow(r, n) > 0.0
    ensures Pow(r, n) * (1.0 + n as real * d) <= 1.0
  {
    if n > 0 {
      PowFalls(r, d, n - 1);
      var q, k := Pow(r, n - 1), (n - 1) as real;
      assert n as real == k + 1.0;
      PowStep(r, d, q, k);
    }
  }

  lemma PowStep(r: real, d: real, q: real, k: real)
    requires 0.0 < r && d >= 0.0 && r * (1.0 + d) <= 1.0
    requires q > 0.0 && k >= 0.0 && q * (1.0 + k * d) <= 1.0
    ensures r * q > 0.0
    ensures r * q * (1.0 + (k + 1.0) * d) <= 1.0
  {
    // (1 + d)(1 + k d) exceeds 1 + (k + 1) d by k d^2.
    var excess := Scaled(k, d * d, d * d);
    var u := q * (1.0 + k * d);
    var v := r * (1.0 + d);
    assert u * v <= 1.0 by {
      Monotone(u, v, 1.0);
    }
    var rq := Product(r, q);
    Monotone(rq, 0.0, k * (d * d));
    assert u * v == rq * (1.0 + (k + 1.0) * d) + rq * (k * (d * d));
  }

  // For every tolerance there is an edge after which the energy stays below it.
  lemma SeededConverges(p: Plant, l: Loop, tolerance: real) returns (m: nat)
    requires Steerable(p) && Seeded(p, l) && tolerance > 0.0
    ensures forall n: nat :: n >= m ==> CommonEnergy(p, LoopAt(DEFAULTS, p, l, n)) <= tolerance
  {
    hide Tick, Step, Common, Residual, InPi;
    var locked := SeededLock(p, l);
    m := Settles(p, l, locked, tolerance);
  }

  // A geometric bound from some edge on goes below every tolerance.
  lemma Settles(p: Plant, l: Loop, locked: nat, tolerance: real) returns (m: nat)
    requires tolerance > 0.0
    requires forall n: nat :: n >= locked ==>
      CommonEnergy(p, LoopAt(DEFAULTS, p, l, n)) <= Pow(CONTRACTION, n - locked) * ELLIPSE
    ensures forall n: nat :: n >= m ==> CommonEnergy(p, LoopAt(DEFAULTS, p, l, n)) <= tolerance
  {
    var edges := Edges(ELLIPSE / tolerance, 0.00002);
    m := locked + edges;
    hide LoopAt, Tick, Step, Common, Residual, InPi;
    forall n: nat | n >= m
      ensures CommonEnergy(p, LoopAt(DEFAULTS, p, l, n)) <= tolerance
    {
      PowFalls(CONTRACTION, 0.00002, n - locked);
      BelowTolerance(Pow(CONTRACTION, n - locked), (n - locked) as real, edges as real, tolerance);
    }
  }

  lemma BelowTolerance(q: real, k: real, edges: real, tolerance: real)
    requires q > 0.0 && tolerance > 0.0 && k >= edges
    requires q * (1.0 + k * 0.00002) <= 1.0
    requires ELLIPSE / tolerance <= edges * 0.00002
    ensures q * ELLIPSE <= tolerance
  {
    var ratio := ELLIPSE / tolerance;
    assert ratio * tolerance == ELLIPSE;
    assert ratio <= 1.0 + k * 0.00002;
    Monotone(q, ratio, 1.0 + k * 0.00002);
    Monotone(tolerance, q * ratio, 1.0);
  }
}
