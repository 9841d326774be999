/**
 The servo closed around the clock it steers.

 Between two feedback edges the phase error moves by the edge period times the
 rate at which the corrected clock is off: `x' = x + T * (a - ppb)`, with `x` in
 nanoseconds, `T` in seconds and the true drift `a` in parts per billion.  The
 listener applies a correction only when the servo reports LOCKED, and otherwise
 leaves the clock as it was.
 */
module ServoLoop {
  import opened Reals
  import opened PiServo
  import opened Words

  // The clock being steered: edge period, true drift and the time of each edge.
  datatype Plant = Plant(T: real, a: real, stamp: nat -> nat)

  datatype Loop = Loop(servo: State, x: real, applied: real)

  function Tick(c: Config, p: Plant, l: Loop, local: nat): Loop {
    var o := Step(c, l.servo, l.x, local);
    var applied := if o.report == Locked then o.ppb else l.applied;
    Loop(o.next, l.x + p.T * (p.a - applied), applied)
  }

  // The loop after `n` edges.
  function LoopAt(c: Config, p: Plant, l: Loop, n: nat): Loop {
    if n == 0 then l else Tick(c, p, LoopAt(c, p, l, n - 1), p.stamp(n - 1))
  }

  // How far the drift estimate is from the true drift.
  function Residual(p: Plant, l: Loop): real {
    p.a - l.servo.drift
  }

  // The next sample is handled by the PI branch, and its correction fits.
  predicate InPi(c: Config, l: Loop) {
    && l.servo.phase == Tracking
    && !IsStep(c, l.x)
    && !IsLarge(c, l.x)
    && !Clamped(c, l.servo, l.x)
  }

  // ---- One edge of the PI branch --------------------------------------------

  // In the PI branch the loop is linear in phase error and residual.
  lemma PiTick(c: Config, p: Plant, l: Loop, local: nat, k: real)
    requires InPi(c, l) && k == ActiveKi(c, l.servo)
    ensures var m := Tick(c, p, l, local);
      var e := Residual(p, l);
      && m.x == NextX(p.T, c.kp, k, l.x, e)
      && Residual(p, m) == NextE(k, l.x, e)
      && m.servo.phase == Tracking
      && m.servo.trackingSamples == (l.servo.trackingSamples + 1) % U32
  {
    var e := Residual(p, l);
    var raw := RawPpb(c, l.servo, l.x);
    assert raw == c.kp * l.x + l.servo.drift + k * l.x;
    assert p.a - raw == e - (c.kp + k) * l.x;
    assert p.T * (p.a - raw) == p.T * (e - (c.kp + k) * l.x);
  }

  function NextX(T: real, kp: real, k: real, x: real, e: real): real {
    x + T * (e - (kp + k) * x)
  }

  function NextE(k: real, x: real, e: real): real {
    e - k * x
  }

  // ---- Energy of the linear loop --------------------------------------------

  // A sum of squares of the residual and of the phase error one edge ahead of
  // it.  Divided by T * (1 + T * k) it is p x^2 - 2 p T x e + e^2 with
  // p = k / (T * (1 + T * k)).
  function Energy(T: real, k: real, x: real, e: real): real {
    k * ((x - T * e) * (x - T * e)) + T * (e * e)
  }

  // What one edge takes out of the energy, up to the factor k * T.
  function Loss(T: real, kp: real, k: real, x: real, e: real): real {
    (kp * (2.0 - T * kp) - k) * (x * x) + T * (e * e)
  }

  // Gains for which the linear loop is stable at edge period T.
  predicate StableGains(T: real, kp: real, k: real) {
    && T > 0.0
    && kp > 0.0
    && T * kp < 1.0
    && 0.0 < k < kp * (2.0 - T * kp)
  }

  lemma EnergyIdentity(T: real, kp: real, k: real, x: real, e: real)
    ensures Energy(T, k, NextX(T, kp, k, x, e), NextE(k, x, e))
      == Energy(T, k, x, e) - k * T * Loss(T, kp, k, x, e)
  {
  }

  lemma LossSign(T: real, kp: real, k: real, x: real, e: real)
    requires StableGains(T, kp, k)
    ensures Loss(T, kp, k, x, e) >= 0.0
    ensures x != 0.0 || e != 0.0 ==> Loss(T, kp, k, x, e) > 0.0
  {
    SumOfSquares(kp * (2.0 - T * kp) - k, T, x, e);
  }

  lemma SumOfSquares(m: real, n: real, x: real, e: real)
    requires m > 0.0 && n > 0.0
    ensures m * (x * x) + n * (e * e) >= 0.0
    ensures x != 0.0 || e != 0.0 ==> m * (x * x) + n * (e * e) > 0.0
  {
    var a := ScaledSquare(m, x);
    var b := ScaledSquare(n, e);
    assert a + b >= 0.0;
    assert x != 0.0 || e != 0.0 ==> a + b > 0.0;
  }

  lemma EnergyDecreases(T: real, kp: real, k: real, x: real, e: real)
    requires StableGains(T, kp, k)
    ensures var next := Energy(T, k, NextX(T, kp, k, x, e), NextE(k, x, e));
      next <= Energy(T, k, x, e) && (x != 0.0 || e != 0.0 ==> next < Energy(T, k, x, e))
  {
    EnergyIdentity(T, kp, k, x, e);
    LossSign(T, kp, k, x, e);
    var kT := Product(k, T);
    var drop := Product(kT, Loss(T, kp, k, x, e));
  }

  // The energy bounds the phase error and the residual separately.
  lemma EnergyBounds(T: real, k: real, x: real, e: real)
    requires T > 0.0 && k > 0.0
    ensures T * (e * e) <= Energy(T, k, x, e)
    ensures k * (x * x) <= (1.0 + T * k) * Energy(T, k, x, e)
  {
    var y := ScaledSquare(k, x - T * e);
    var z := ScaledSquare(T, k * x - (1.0 + T * k) * e);
    SquareCompleted(T, k, x, e);
  }

  lemma SquareCompleted(T: real, k: real, x: real, e: real)
    ensures (1.0 + T * k) * Energy(T, k, x, e)
      == k * (x * x) + T * ((k * x - (1.0 + T * k) * e) * (k * x - (1.0 + T * k) * e))
  {
  }

  // ---- A loop started in a small enough ellipse stays in the PI branch -------

  // Every one of the next n + 1 samples would be integrated with gain k.
  predicate FixedGain(c: Config, samples: nat, n: nat, k: real) {
    forall i :: 0 <= i <= n ==> GainAt(c, Later(samples, i)) == k
  }

  // The sample counter i samples later; it is an unsigned 32-bit field.
  function Later(samples: nat, i: nat): nat {
    (samples + i) % U32
  }

  // Energies up to v keep the phase error inside the PI window, the residual
  // inside reach, and hence every correction inside the clamp.
  predicate SmallEllipse(c: Config, p: Plant, k: real, v: real, reach: real) {
    var thresh := c.slewThresh as real;
    && 0.0 <= thresh
    && 0.0 <= reach
    && (c.stepThreshold == 0.0 || thresh <= c.stepThreshold)
    && v <= p.T * (reach * reach)
    && (1.0 + p.T * k) * v <= k * (thresh * thresh)
    && (c.kp + k) * thresh + Abs(p.a) + reach <= c.maxPpb
  }

  function LoopEnergy(p: Plant, k: real, l: Loop): real {
    Energy(p.T, k, l.x, Residual(p, l))
  }

  lemma PiPpbWithin(kp: real, k: real, x: real, a: real, drift: real, thresh: real, reach: real, bound: real)
    requires kp >= 0.0 && k >= 0.0
    requires Abs(x) <= thresh && Abs(a - drift) <= reach
    requires (kp + k) * thresh + Abs(a) + reach <= bound
    ensures Abs(PiPpb(kp, k, drift, x)) <= bound
  {
    PiPpbIs(kp, k, drift, x);
    TimesWithin(kp + k, x, thresh);
    assert Times(kp + k, thresh) == (kp + k) * thresh;
    hide PiPpb, Times;
    Sum(Times(kp + k, x), Times(kp + k, thresh), drift, a, reach, bound);
  }

  lemma PiPpbIs(kp: real, k: real, drift: real, x: real)
    ensures PiPpb(kp, k, drift, x) == Times(kp + k, x) + drift
  {
  }

  lemma Sum(y: real, most: real, drift: real, a: real, reach: real, bound: real)
    requires Abs(y) <= most && Abs(a - drift) <= reach
    requires most + Abs(a) + reach <= bound
    ensures Abs(y + drift) <= bound
  {
  }

  lemma PhaseExtent(u: real, k: real, x: real, energy: real, v: real, thresh: real)
    requires u >= 0.0 && k > 0.0 && thresh >= 0.0
    requires k * (x * x) <= u * energy
    requires energy <= v
    requires u * v <= k * (thresh * thresh)
    ensures Abs(x) <= thresh
  {
    Monotone(u, energy, v);
    SquareRoot(k, x, thresh);
  }

  lemma EllipseExtent(T: real, k: real, x: real, e: real, v: real, thresh: real, reach: real)
    requires T > 0.0 && k > 0.0 && thresh >= 0.0 && reach >= 0.0
    requires Energy(T, k, x, e) <= v
    requires v <= T * (reach * reach)
    requires (1.0 + T * k) * v <= k * (thresh * thresh)
    ensures Abs(x) <= thresh && Abs(e) <= reach
  {
    EnergyBounds(T, k, x, e);
    var energy, u := Energy(T, k, x, e), 1.0 + T * k;
    assert u >= 0.0 by {
      var Tk := Product(T, k);
    }
    PhaseExtent(u, k, x, energy, v, thresh);
    PhaseExtent(1.0, T, e, energy, v, reach);
  }

  lemma ExtentInPi(c: Config, p: Plant, l: Loop, k: real, reach: real)
    requires c.kp >= 0.0 && k >= 0.0
    requires l.servo.phase == Tracking && ActiveKi(c, l.servo) == k
    requires Abs(l.x) <= c.slewThresh as real && Abs(Residual(p, l)) <= reach
    requires c.stepThreshold == 0.0 || c.slewThresh as real <= c.stepThreshold
    requires (c.kp + k) * c.slewThresh as real + Abs(p.a) + reach <= c.maxPpb
    ensures InPi(c, l)
  {
    hide PiPpb, SlewPpb;
    PiPpbWithin(c.kp, k, l.x, p.a, l.servo.drift, c.slewThresh as real, reach, c.maxPpb);
  }

  lemma InsideEllipse(c: Config, p: Plant, l: Loop, k: real, v: real, reach: real)
    requires p.T > 0.0 && c.kp > 0.0 && k > 0.0
    requires SmallEllipse(c, p, k, v, reach)
    requires l.servo.phase == Tracking && ActiveKi(c, l.servo) == k
    requires LoopEnergy(p, k, l) <= v
    ensures InPi(c, l)
  {
    EllipseExtent(p.T, k, l.x, Residual(p, l), v, c.slewThresh as real, reach);
    ExtentInPi(c, p, l, k, reach);
  }

  lemma LaterAdds(samples: nat, i: nat)
    requires samples < U32
    ensures Later(samples, 0) == samples
    ensures Later(Later(samples, i), 1) == Later(samples, i + 1)
  {
  }

  // One edge of the loop inside the ellipse.
  lemma PiStays(c: Config, p: Plant, l: Loop, local: nat, k: real, v: real, reach: real)
    requires StableGains(p.T, c.kp, k)
    requires SmallEllipse(c, p, k, v, reach)
    requires l.servo.phase == Tracking && ActiveKi(c, l.servo) == k
    requires LoopEnergy(p, k, l) <= v
    ensures var m := Tick(c, p, l, local);
      && InPi(c, l)
      && m.servo.phase == Tracking
      && m.servo.trackingSamples == Later(l.servo.trackingSamples, 1)
      && LoopEnergy(p, k, m) <= LoopEnergy(p, k, l)
      && (l.x != 0.0 || Residual(p, l) != 0.0 ==> LoopEnergy(p, k, m) < LoopEnergy(p, k, l))
  {
    InsideEllipse(c, p, l, k, v, reach);
    PiTick(c, p, l, local, k);
    EnergyDecreases(p.T, c.kp, k, l.x, Residual(p, l));
  }

  // However long the gain stays k, a loop started in the ellipse is handled by
  // the PI branch at every edge, and off the equilibrium its energy falls.
  lemma {:induction false} PiForever(c: Config, p: Plant, l: Loop, n: nat, k: real, v: real, reach: real)
    requires StableGains(p.T, c.kp, k)
    requires SmallEllipse(c, p, k, v, reach)
    requires l.servo.phase == Tracking && LoopEnergy(p, k, l) <= v
    requires l.servo.trackingSamples < U32
    requires FixedGain(c, l.servo.trackingSamples, n, k)
    ensures var m := LoopAt(c, p, l, n);
      && InPi(c, m)
      && LoopEnergy(p, k, m) <= LoopEnergy(p, k, l)
      && m.servo.trackingSamples == Later(l.servo.trackingSamples, n)
      && (m.x != 0.0 || Residual(p, m) != 0.0 ==>
           LoopEnergy(p, k, LoopAt(c, p, l, n + 1)) < LoopEnergy(p, k, m))
  {
    assert GainAt(c, Later(l.servo.trackingSamples, n)) == k;
    var m := LoopAt(c, p, l, n);
    if n == 0 {
      LaterAdds(l.servo.trackingSamples, 0);
    } else {
      var before := LoopAt(c, p, l, n - 1);
      PiForever(c, p, l, n - 1, k, v, reach);
      LaterAdds(l.servo.trackingSamples, n - 1);
      PiStays(c, p, before, p.stamp(n - 1), k, v, reach);
    }
    PiStays(c, p, m, p.stamp(n), k, v, reach);
  }
}
