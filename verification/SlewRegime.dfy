/**
 The large-error regime: proportional gain only, the integrator held.

 The loop leaves it for the PI branch when the drift estimate is strictly within
 slewKp * slewThresh of the true drift.  Otherwise it parks: it goes on
 reporting LOCKED, and the only branch that could refine the estimate is the one
 it never reaches.
 */
module SlewRegime {
  import opened Reals
  import opened PiServo
  import opened ServoLoop

  // The next sample is handled by the slewing branch.
  predicate InSlew(c: Config, l: Loop) {
    && l.servo.phase == Tracking
    && !IsStep(c, l.x)
    && IsLarge(c, l.x)
  }

  function Thresh(c: Config): real {
    c.slewThresh as real
  }

  // The widest residual the slewing branch can bring into the PI window.
  function Authority(c: Config): real {
    Times(c.slewKp, Thresh(c))
  }

  // The part of the phase error that one unclamped edge removes.
  function PerEdge(c: Config, p: Plant): real {
    Times(c.slewKp, p.T)
  }

  // By how much the correction overcomes the true drift, as a function of the
  // residual e and the phase error x.
  function Pull(s: real, bound: real, a: real, e: real, x: real): real {
    Drive(Times(s, x), bound, a, e)
  }

  // The same as a function of the product of gain and phase error.
  function Drive(v: real, bound: real, a: real, e: real): real {
    Clamp(v + (a - e), bound) - a
  }

  function LoopPull(c: Config, p: Plant, l: Loop): real {
    Pull(c.slewKp, c.maxPpb, p.a, Residual(p, l), l.x)
  }

  // The integrator is held, so one edge only moves the phase error.
  lemma SlewTick(c: Config, p: Plant, l: Loop, local: nat)
    requires InSlew(c, l)
    ensures var m := Tick(c, p, l, local);
      && m.x == l.x - Times(p.T, LoopPull(c, p, l))
      && m.servo.drift == l.servo.drift
      && Residual(p, m) == Residual(p, l)
      && m.servo.phase == Tracking
      && m.servo.trackingSamples == 0
      && Step(c, l.servo, l.x, local).report == Locked
  {
    assert p.a - Residual(p, l) == l.servo.drift;
    var ppb := Clamp(RawPpb(c, l.servo, l.x), c.maxPpb);
    assert p.T * (p.a - ppb) == -(p.T * (ppb - p.a));
  }

  // A quantity seen from the side of the window that the phase error x is on.
  function Toward(x: real, y: real): real {
    if x < 0.0 then -y else y
  }

  function Outward(l: Loop, e: real): real {
    Toward(l.x, e)
  }

  // The regime treats both signs alike.
  lemma Mirror(s: real, bound: real, a: real, e: real, x: real)
    requires bound >= 0.0
    ensures Pull(s, bound, -a, -e, -x) == -Pull(s, bound, a, e, x)
  {
    hide Times;
    TimesNegated(s, x);
  }

  lemma TowardPull(c: Config, p: Plant, l: Loop)
    requires c.maxPpb >= 0.0
    ensures Toward(l.x, LoopPull(c, p, l))
      == Pull(c.slewKp, c.maxPpb, Toward(l.x, p.a), Outward(l, Residual(p, l)), Abs(l.x))
  {
    Mirror(c.slewKp, c.maxPpb, p.a, Residual(p, l), l.x);
  }

  // One edge, seen from the side it starts on.
  lemma TowardTick(c: Config, p: Plant, l: Loop, local: nat)
    requires InSlew(c, l) && c.maxPpb >= 0.0
    ensures Toward(l.x, Tick(c, p, l, local).x) == Abs(l.x)
      - Times(p.T, Pull(c.slewKp, c.maxPpb, Toward(l.x, p.a), Outward(l, Residual(p, l)), Abs(l.x)))
  {
    SlewTick(c, p, l, local);
    TowardPull(c, p, l);
    hide Tick, Step, Residual, Pull, Times;
    TimesNegated(p.T, LoopPull(c, p, l));
  }

  // ---- Escape ---------------------------------------------------------------

  predicate Slewing(c: Config, p: Plant) {
    && p.T > 0.0
    && c.slewKp > 0.0
    && PerEdge(c, p) <= 1.0
    && c.slewThresh > 0
    && c.maxPpb > 0.0
  }

  // The pull at the edge of the window on x's side: the least there is on that side.
  function Grip(c: Config, p: Plant, x: real, e: real): real {
    Pull(c.slewKp, c.maxPpb, Toward(x, p.a), Toward(x, e), Thresh(c))
  }

  // Not even an edge that starts at the window is thrown past the opposite threshold.
  predicate Lands(c: Config, p: Plant, x: real, e: real) {
    Times(p.T, Grip(c, p, x, e)) <= 2.0 * Thresh(c)
  }

  // The estimate is close enough on x's side.  At the bound itself only a gain that
  // removes the whole phase error in one edge gets to the window.
  predicate InReach(c: Config, p: Plant, x: real, e: real) {
    Toward(x, e) < Authority(c) || (Toward(x, e) == Authority(c) && PerEdge(c, p) == 1.0)
  }

  predicate Recoverable(c: Config, p: Plant, x: real, e: real) {
    Slewing(c, p) && Abs(p.a) < c.maxPpb && Lands(c, p, x, e) && InReach(c, p, x, e)
  }

  // How far the phase error falls at an edge, in nanoseconds, at the least.
  function Fall(c: Config, p: Plant, x: real, e: real): real {
    FallOf(p.T, c.slewKp, c.maxPpb, Toward(x, p.a), Toward(x, e), Thresh(c))
  }

  function FallOf(T: real, s: real, bound: real, a: real, e: real, thresh: real): real {
    if e < Times(s, thresh) then Times(T, Pull(s, bound, a, e, thresh)) else Times(T, bound - a)
  }

  // The pull rises with the product, no faster, and is positive where the product
  // exceeds the residual.
  lemma DriveRises(v: real, d: real, bound: real, a: real, e: real)
    requires d >= 0.0 && Abs(a) < bound
    ensures var least, most := Drive(v, bound, a, e), Drive(v + d, bound, a, e);
      && least <= most <= least + d
      && (v > e ==> least > 0.0)
      && (least <= v - e || least <= 0.0)
      && (most <= v + d - e || most <= 0.0)
      && (v + d > e ==> 0.0 < most <= v + d - e && (most == v + d - e || most == bound - a))
  {
  }

  // What escaping needs, on the side where phase errors are positive.
  predicate Reach(T: real, s: real, bound: real, a: real, e: real, thresh: real) {
    && T > 0.0 && s > 0.0 && Times(s, T) <= 1.0 && thresh > 0.0 && Abs(a) < bound
    && Times(T, Pull(s, bound, a, e, thresh)) <= 2.0 * thresh
    && (e < Times(s, thresh) || (e == Times(s, thresh) && Times(s, T) == 1.0))
  }

  // An edge from x to y falls by the least there is or into the window, and not past
  // the opposite threshold.
  predicate FallsTo(x: real, y: real, fall: real, thresh: real) {
    && fall > 0.0
    && -thresh <= y < x
    && (y <= x - fall || y <= thresh)
  }

  lemma Falls(T: real, s: real, bound: real, a: real, e: real, x: real, thresh: real)
    requires Reach(T, s, bound, a, e, thresh) && x > thresh
    ensures FallsTo(x, x - Times(T, Pull(s, bound, a, e, x)), FallOf(T, s, bound, a, e, thresh), thresh)
  {
    hide Times, Drive;
    var v, d := Times(s, thresh), Times(s, x - thresh);
    TimesSum(s, thresh, x - thresh);
    TimesSign(s, x - thresh);
    DriveRises(v, d, bound, a, e);
    var least, most := Pull(s, bound, a, e, thresh), Pull(s, bound, a, e, x);
    TimesSign(T, most);
    TimesTwice(T, s, x - thresh);
    TimesPart(Times(s, T), x - thresh);
    if e < v {
      TimesSign(T, least);
      TimesMonotone(T, least, most);
      TimesMonotone(T, most, least + d);
      TimesSum(T, least, d);
    } else {
      TimesSign(T, bound - a);
      TimesMonotone(T, most, d);
    }
  }

  lemma RecoverableIs(c: Config, p: Plant, x: real, e: real)
    requires Recoverable(c, p, x, e)
    ensures Reach(p.T, c.slewKp, c.maxPpb, Toward(x, p.a), Toward(x, e), Thresh(c))
  {
    hide Pull, Times;
  }

  // One edge of the slewing branch, whichever side of the window it is on.
  lemma EscapeStep(c: Config, p: Plant, l: Loop, local: nat)
    requires InSlew(c, l) && Recoverable(c, p, l.x, Residual(p, l))
    ensures var m := Tick(c, p, l, local);
      && m.servo.phase == Tracking
      && m.servo.drift == l.servo.drift
      && m.servo.trackingSamples == 0
      && !IsStep(c, m.x)
      && Fall(c, p, l.x, Residual(p, l)) > 0.0
      && -Thresh(c) <= Toward(l.x, m.x) < Abs(l.x)
      && (Abs(m.x) <= Abs(l.x) - Fall(c, p, l.x, Residual(p, l)) || !IsLarge(c, m.x))
  {
    RecoverableIs(c, p, l.x, Residual(p, l));
    assert c.maxPpb >= 0.0;
    hide Tick, Step, Residual, Pull, Times, FallOf, Reach, Recoverable;
    Falls(p.T, c.slewKp, c.maxPpb, Toward(l.x, p.a), Outward(l, Residual(p, l)), Abs(l.x), Thresh(c));
    SlewTick(c, p, l, local);
    TowardTick(c, p, l, local);
  }

  // The clamp only ever weakens the pull.
  lemma PullAtMost(c: Config, p: Plant, l: Loop)
    requires c.slewKp > 0.0 && Abs(p.a) < c.maxPpb
    requires IsLarge(c, l.x) && Abs(Residual(p, l)) <= Authority(c)
    ensures 0.0 < Toward(l.x, LoopPull(c, p, l)) <= Times(c.slewKp, Abs(l.x)) - Outward(l, Residual(p, l))
  {
    TowardPull(c, p, l);
    hide Residual, Times, LoopPull, Drive;
    var d := Abs(l.x) - Thresh(c);
    TimesSum(c.slewKp, Thresh(c), d);
    TimesSign(c.slewKp, d);
    DriveRises(Times(c.slewKp, Thresh(c)), Times(c.slewKp, d), c.maxPpb, Toward(l.x, p.a), Outward(l, Residual(p, l)));
  }

  // An estimate strictly within reach on either side never jumps the window.
  lemma WithinAuthority(c: Config, p: Plant, x: real, e: real)
    requires Slewing(c, p) && Abs(e) < Authority(c) && Abs(p.a) < c.maxPpb
    ensures Recoverable(c, p, x, e)
  {
    hide Times, Drive;
    var thresh := Thresh(c);
    var v := Times(c.slewKp, thresh);
    DriveRises(v, 0.0, c.maxPpb, Toward(x, p.a), Toward(x, e));
    TimesMonotone(p.T, Grip(c, p, x, e), v + v);
    TimesSum(p.T, v, v);
    TimesTwice(p.T, c.slewKp, thresh);
    TimesPart(PerEdge(c, p), thresh);
  }

  // Edge j is handled by the slewing branch, lowers the phase error, and stops short
  // of the opposite threshold.
  predicate FallsAt(c: Config, p: Plant, l: Loop, j: nat) {
    var x, y := LoopAt(c, p, l, j).x, LoopAt(c, p, l, j + 1).x;
    InSlew(c, LoopAt(c, p, l, j)) && Abs(y) < Abs(x) && Toward(x, y) >= -Thresh(c)
  }

  // What `n` edges of at least `fall` cover between them.
  function Covered(n: nat, fall: real): real {
    n as real * fall
  }

  lemma OneFewer(n: nat, fall: real)
    ensures Covered(0, fall) == 0.0
    ensures n > 0 ==> Covered(n, fall) == Covered(n - 1, fall) + fall
  {
    if n > 0 {
      assert n as real == (n - 1) as real + 1.0;
    }
  }

  lemma SameResidual(p: Plant, l: Loop, m: Loop)
    ensures m.servo.drift == l.servo.drift ==> Residual(p, m) == Residual(p, l)
  {
  }

  // Only the side matters.
  lemma SameSide(c: Config, p: Plant, x: real, z: real, e: real)
    requires x < 0.0 <==> z < 0.0
    ensures Recoverable(c, p, x, e) ==> Recoverable(c, p, z, e)
    ensures Fall(c, p, x, e) == Fall(c, p, z, e)
  {
  }

  // A tracking loop whose phase error above the window is at most `budget` edges'
  // worth, `fall` being the least that an edge takes off it.
  predicate Slewable(c: Config, p: Plant, l: Loop, budget: nat, fall: real) {
    && l.servo.phase == Tracking
    && !IsStep(c, l.x)
    && Abs(l.x) <= Thresh(c) + Covered(budget, fall)
    && (IsLarge(c, l.x) ==>
          Recoverable(c, p, l.x, Residual(p, l)) && fall == Fall(c, p, l.x, Residual(p, l)))
  }

  lemma SlewableEdge(c: Config, p: Plant, l: Loop, local: nat, budget: nat, fall: real)
    requires Slewable(c, p, l, budget, fall) && IsLarge(c, l.x)
    ensures budget > 0
    ensures var m := Tick(c, p, l, local);
      && m.servo.drift == l.servo.drift
      && -Thresh(c) <= Toward(l.x, m.x) < Abs(l.x)
      && (IsLarge(c, m.x) ==> (l.x < 0.0 <==> m.x < 0.0))
      && Slewable(c, p, m, budget - 1, fall)
  {
    var m := Tick(c, p, l, local);
    OneFewer(budget, fall);
    SameResidual(p, l, m);
    hide Tick, Step, Residual, Fall, Covered, Recoverable, IsStep;
    assert c.slewThresh > 0 by {
      ThreshSign(c, p, l.x, Residual(p, l));
    }
    EscapeStep(c, p, l, local);
    assert budget > 0;
    CoveredSign(budget - 1, fall);
    if IsLarge(c, m.x) {
      SameSide(c, p, l.x, m.x, Residual(p, l));
    }
  }

  lemma ThreshSign(c: Config, p: Plant, x: real, e: real)
    requires Recoverable(c, p, x, e)
    ensures c.slewThresh > 0
  {
  }

  lemma CoveredSign(n: nat, fall: real)
    requires fall >= 0.0
    ensures Covered(n, fall) >= 0.0
  {
  }

  // From edge `from` on, the loop reaches the window within the budget.  On the way it
  // falls at every edge and stays on its side; it lands short of the opposite
  // threshold, and the drift estimate is what it was.
  lemma {:induction false} Escapes(c: Config, p: Plant, l: Loop, from: nat, budget: nat, fall: real) returns (m: nat)
    requires Slewable(c, p, LoopAt(c, p, l, from), budget, fall)
    ensures from <= m <= from + budget
    ensures forall j :: from <= j < m ==>
      FallsAt(c, p, l, j) && (LoopAt(c, p, l, j).x < 0.0 <==> LoopAt(c, p, l, from).x < 0.0)
    ensures var end := LoopAt(c, p, l, m);
      && end.servo.phase == Tracking
      && !IsStep(c, end.x)
      && !IsLarge(c, end.x)
      && end.servo.drift == LoopAt(c, p, l, from).servo.drift
    decreases budget
  {
    hide Tick, Step, Residual, Recoverable, Fall, Covered;
    var start := LoopAt(c, p, l, from);
    m := from;
    if IsLarge(c, start.x) {
      SlewableEdge(c, p, start, p.stamp(from), budget, fall);
      m := Escapes(c, p, l, from + 1, budget - 1, fall);
    }
  }

  // ---- Parked ---------------------------------------------------------------

  // At the bound itself the phase error creeps up to the window without ever
  // entering it, unless the gain removes the whole error in one edge.
  predicate OutOfReach(c: Config, p: Plant, outward: real) {
    outward >= Authority(c) && (outward > Authority(c) || PerEdge(c, p) < 1.0)
  }

  // The step check never fires on the way to the resting point e / slewKp.
  predicate StaysBelowStep(c: Config, x: real, outward: real) {
    c.stepThreshold == 0.0 || (Abs(x) <= c.stepThreshold && outward <= Times(c.slewKp, c.stepThreshold))
  }

  predicate Parked(c: Config, p: Plant, l: Loop) {
    && l.servo.phase == Tracking
    && IsLarge(c, l.x)
    && OutOfReach(c, p, Outward(l, Residual(p, l)))
    && StaysBelowStep(c, l.x, Outward(l, Residual(p, l)))
  }

  // Above the window and out of reach, an edge leaves the phase error above the window,
  // and no further out than it was or than the resting point.
  lemma StaysAbove(T: real, s: real, bound: real, a: real, e: real, x: real, thresh: real, step: real)
    requires T > 0.0 && s > 0.0 && Times(s, T) <= 1.0 && thresh > 0.0 && x > thresh && Abs(a) <= bound
    requires e >= Times(s, thresh) && (e > Times(s, thresh) || Times(s, T) < 1.0)
    ensures var y := x - Times(T, Pull(s, bound, a, e, x));
      y > thresh && (x <= step && e <= Times(s, step) ==> y <= step)
  {
    var q := Pull(s, bound, a, e, x);
    assert q <= Times(s, x) - e || q <= 0.0;
    assert q >= Times(s, x) - e || q >= 0.0;
    hide Pull, Abs;
    NotInto(T, s, e, x, thresh, q);
    if x <= step && e <= Times(s, step) {
      NotOut(T, s, e, x, step, q);
    }
  }

  lemma NotInto(T: real, s: real, e: real, x: real, thresh: real, q: real)
    requires T > 0.0 && s > 0.0 && Times(s, T) <= 1.0 && x > thresh
    requires e >= Times(s, thresh) && (e > Times(s, thresh) || Times(s, T) < 1.0)
    requires q <= Times(s, x) - e || q <= 0.0
    ensures x - Times(T, q) > thresh
  {
    hide Times;
    if q <= 0.0 {
      TimesSign(T, q);
    } else {
      // At most the way down to the resting point is covered.
      var d, o := x - thresh, e - Times(s, thresh);
      TimesSum(s, thresh, d);
      TimesMonotone(T, q, Times(s, d) - o);
      TimesSum(T, Times(s, d), -o);
      TimesNegated(T, o);
      TimesSign(T, o);
      TimesTwice(T, s, d);
      TimesPartIs(Times(s, T), d);
    }
  }

  lemma TimesPartIs(m: real, x: real)
    requires m <= 1.0 && x > 0.0
    ensures Times(m, x) <= x && (m < 1.0 ==> Times(m, x) < x)
  {
    TimesPart(m, x);
    if m < 1.0 {
      var r := Product(x, 1.0 - m);
      assert r == x - m * x;
    }
  }

  lemma NotOut(T: real, s: real, e: real, x: real, step: real, q: real)
    requires T > 0.0 && s > 0.0 && Times(s, T) <= 1.0
    requires x <= step && e <= Times(s, step)
    requires q >= Times(s, x) - e || q >= 0.0
    ensures x - Times(T, q) <= step
  {
    hide Times;
    if q >= 0.0 {
      TimesSign(T, q);
    } else {
      var d, o := step - x, Times(s, step) - e;
      TimesSum(s, x, d);
      TimesMonotone(T, o - Times(s, d), q);
      TimesSum(T, o, -Times(s, d));
      TimesNegated(T, Times(s, d));
      TimesSign(T, o);
      TimesTwice(T, s, d);
      TimesPart(Times(s, T), d);
    }
  }

  // One edge of a parked loop: LOCKED is reported, the estimate is not refined,
  // and the loop is still parked on the same side.
  lemma ParkedStep(c: Config, p: Plant, l: Loop, local: nat)
    requires Slewing(c, p) && Abs(p.a) <= c.maxPpb
    requires Parked(c, p, l)
    ensures var m := Tick(c, p, l, local);
      && Parked(c, p, m)
      && m.servo.drift == l.servo.drift
      && (m.x > 0.0 <==> l.x > 0.0)
      && Step(c, l.servo, l.x, local).report == Locked
  {
    hide Tick, Step, Residual, Pull, Times;
    StaysAbove(p.T, c.slewKp, c.maxPpb, Toward(l.x, p.a), Outward(l, Residual(p, l)), Abs(l.x), Thresh(c),
               c.stepThreshold);
    SlewTick(c, p, l, local);
    TowardTick(c, p, l, local);
  }

  // The parked loop stays parked for ever, reporting LOCKED at every edge.
  lemma {:induction false} ParkedForever(c: Config, p: Plant, l: Loop, n: nat)
    requires Slewing(c, p) && Abs(p.a) <= c.maxPpb
    requires Parked(c, p, l)
    ensures var m := LoopAt(c, p, l, n);
      && Parked(c, p, m)
      && m.servo.drift == l.servo.drift
      && Step(c, m.servo, m.x, p.stamp(n)).report == Locked
  {
    hide Tick, Step;
    if n > 0 {
      ParkedForever(c, p, l, n - 1);
      ParkedStep(c, p, LoopAt(c, p, l, n - 1), p.stamp(n - 1));
    }
    ParkedStep(c, p, LoopAt(c, p, l, n), p.stamp(n));
  }

  // A loop outside the window ever reaches it exactly when its drift estimate is
  // strictly less than slewKp * slewThresh short of the true drift, or short by just
  // that and a single edge removes the whole phase error.
  lemma EscapesIff(c: Config, p: Plant, l: Loop)
    requires Slewing(c, p) && Abs(p.a) < c.maxPpb
    requires InSlew(c, l)
    requires Lands(c, p, l.x, Residual(p, l))
    requires StaysBelowStep(c, l.x, Outward(l, Residual(p, l)))
    ensures (exists n: nat :: !IsLarge(c, LoopAt(c, p, l, n).x)) <==> InReach(c, p, l.x, Residual(p, l))
  {
    hide Tick, Step, Residual, Authority, PerEdge, Covered, Lands;
    var e := Residual(p, l);
    if InReach(c, p, l.x, e) {
      assert LoopAt(c, p, l, 0) == l;
      var fall := Fall(c, p, l.x, e);
      EscapeStep(c, p, l, 0);
      hide Fall;
      var budget := Edges(Abs(l.x) - Thresh(c), fall);
      var m := Escapes(c, p, l, 0, budget, fall);
      assert !IsLarge(c, LoopAt(c, p, l, m).x);
    } else {
      assert Parked(c, p, l);
      forall n: nat
        ensures IsLarge(c, LoopAt(c, p, l, n).x)
      {
        ParkedForever(c, p, l, n);
      }
    }
  }

  // An estimate so far off on the other side that the condition fails has a phase
  // error close to the window from which one edge jumps it and the loop then parks.
  lemma JumpsOver(c: Config, p: Plant, l: Loop, local: nat) returns (x: real)
    requires Slewing(c, p) && Abs(p.a) < c.maxPpb
    requires l.servo.phase == Tracking && l.x != 0.0
    requires !Lands(c, p, l.x, Residual(p, l))
    requires c.stepThreshold == 0.0 ||
      (Thresh(c) < c.stepThreshold && -Outward(l, Residual(p, l)) <= Times(c.slewKp, c.stepThreshold))
    ensures (x < 0.0 <==> l.x < 0.0) && InSlew(c, l.(x := x))
    ensures Parked(c, p, Tick(c, p, l.(x := x), local))
  {
    hide Pull, Times;
    var z := Beyond(p.T, c.slewKp, c.maxPpb, Toward(l.x, p.a), Outward(l, Residual(p, l)), Thresh(c),
                    c.stepThreshold);
    x := Toward(l.x, z);
    var t := l.(x := x);
    assert Residual(p, t) == Residual(p, l);
    hide Residual, Tick, Step;
    SlewTick(c, p, t, local);
    TowardTick(c, p, t, local);
  }

  // A phase error just above the window from which an edge lands below it.
  lemma Beyond(T: real, s: real, bound: real, a: real, e: real, thresh: real, step: real) returns (z: real)
    requires T > 0.0 && s > 0.0 && Times(s, T) <= 1.0 && thresh > 0.0 && Abs(a) < bound
    requires Times(T, Pull(s, bound, a, e, thresh)) > 2.0 * thresh
    requires step == 0.0 || (thresh < step && -e <= Times(s, step))
    ensures z > thresh && (step == 0.0 || z <= step)
    ensures var y := z - Times(T, Pull(s, bound, a, e, z));
      y < -thresh && (step == 0.0 || -y <= step)
    ensures -e > Times(s, thresh)
  {
    hide Times, Drive;
    var over := Times(T, Pull(s, bound, a, e, thresh)) - 2.0 * thresh;
    var above := if step == 0.0 || step - thresh > over then over / 2.0 else (step - thresh) / 2.0;
    z := thresh + above;
    TimesSum(s, thresh, above);
    TimesSign(s, above);
    DriveRises(Times(s, thresh), Times(s, above), bound, a, e);
    var least, most := Pull(s, bound, a, e, thresh), Pull(s, bound, a, e, z);
    hide Pull, Abs;
    FarOff(T, s, e, thresh, least);
    TimesMonotone(T, least, most);
    if step != 0.0 {
      NotThrown(T, s, e, z, step, most);
    }
  }

  // An edge that falls by more than the window is unclamped by at least as much, so the
  // residual exceeds the authority on the other side.
  lemma FarOff(T: real, s: real, e: real, thresh: real, least: real)
    requires T > 0.0 && s > 0.0 && Times(s, T) <= 1.0 && thresh > 0.0
    requires Times(T, least) > 2.0 * thresh
    requires least <= Times(s, thresh) - e || least <= 0.0
    ensures -e > Times(s, thresh)
  {
    hide Times;
    var v := Times(s, thresh);
    TimesSign(T, least);
    if -e <= v {
      TimesMonotone(T, least, v + v);
      TimesSum(T, v, v);
      TimesTwice(T, s, thresh);
      TimesPart(Times(s, T), thresh);
    }
  }

  // The opposite end of an unclamped edge is not a step either.
  lemma NotThrown(T: real, s: real, e: real, z: real, step: real, most: real)
    requires T > 0.0 && s > 0.0 && Times(s, T) <= 1.0 && 0.0 < z <= step
    requires -e <= Times(s, step)
    requires most <= Times(s, z) - e || most <= 0.0
    ensures Times(T, most) - z <= step
  {
    hide Times;
    TimesSign(T, most);
    if most > 0.0 {
      TimesMonotone(T, most, Times(s, z) + Times(s, step));
      TimesSum(T, Times(s, z), Times(s, step));
      TimesTwice(T, s, z);
      TimesTwice(T, s, step);
      TimesPart(Times(s, T), z);
      TimesPart(Times(s, T), step);
    }
  }

  // Enough edges of at least `fall` to cover `distance`.
  function Edges(distance: real, fall: real): (n: nat)
    requires fall > 0.0
    ensures distance <= Covered(n, fall)
  {
    if distance <= 0.0 then 0 else
    var n := (distance / fall).Floor + 1;
    assert n as real > distance / fall;
    assert n as real * fall >= distance / fall * fall;
    n
  }
}
