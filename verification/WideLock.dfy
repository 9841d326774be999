/**
 The default loop from every drift estimate that the slewing branch can work with.

 Away from the true drift the loop is thrown back and forth: in the window the phase
 error runs to 2.5 times the drift-estimate error, and past the threshold the slewing
 branch takes it back to half of it.  One quadratic falls at every edge of either
 branch, so this ends; what takes care is that the estimate never gets past the
 1000 ppb beyond which the loop parks.
 */
module WideLock {
  import opened Reals
  import opened Words
  import opened PiServo
  import opened ServoLoop
  import opened SlewRegime
  import opened DefaultLoop

  // slewKp * slewThresh of the default tuning.
  const REACH := 1000.0

  // True drifts that the clamp leaves room to correct with such an estimate on top.
  const WIDE_DRIFT := 1_998_700.0

  predicate WidelySteerable(p: Plant) {
    p.T == EDGE_PERIOD && Abs(p.a) <= WIDE_DRIFT
  }

  // ---- A quadratic that falls in both branches ------------------------------

  function Level(x: real, e: real): real {
    0.045 * (x * x) - 0.045 * (x * e) + e * e
  }

  // Levels below the first bound every estimate inside the reach, levels below the
  // second are in the ellipse where the loop settles.
  const CAP := 988_750.0
  const CORE := 3_900.0

  // What an edge of the PI branch leaves of the level, at most.
  const SHRINK := 0.999994

  lemma LevelIs(x: real, e: real)
    ensures Level(x, e) == Form(0.045, -0.0225, x, e)
  {
  }

  lemma LevelShrinks(k: real, x: real, e: real)
    requires k == DEFAULTS.ki || k == DEFAULTS.kiFast
    ensures Level(NextX(EDGE_PERIOD, DEFAULTS.kp, k, x, e), NextE(k, x, e)) <= SHRINK * Level(x, e)
  {
    LevelIs(x, e);
    LevelIs(NextX(EDGE_PERIOD, DEFAULTS.kp, k, x, e), NextE(k, x, e));
    FormLevelShrinks(k, x, e);
    hide Level, Form, NextX, NextE;
  }

  lemma FormLevelShrinks(k: real, x: real, e: real)
    requires k == DEFAULTS.ki || k == DEFAULTS.kiFast
    ensures Form(0.045, -0.0225, NextX(EDGE_PERIOD, DEFAULTS.kp, k, x, e), NextE(k, x, e))
      <= SHRINK * Form(0.045, -0.0225, x, e)
  {
    if k == DEFAULTS.ki {
      FormShrinks(0.045, -0.0225, SHRINK, EDGE_PERIOD, DEFAULTS.kp, DEFAULTS.ki, x, e);
    } else {
      FormShrinks(0.045, -0.0225, SHRINK, EDGE_PERIOD, DEFAULTS.kp, DEFAULTS.kiFast, x, e);
    }
  }

  lemma LevelSign(x: real, e: real)
    ensures Level(x, e) >= 0.0
  {
    QuadraticSign(0.045, -0.0225, 1.0, x, e);
  }

  lemma LevelEven(x: real, e: real)
    ensures Level(-x, -e) == Level(x, e)
  {
  }

  lemma BelowCap(x: real, e: real)
    requires Level(x, e) < CAP
    ensures Abs(e) < REACH
  {
    if Abs(e) >= REACH {
      AboveCap(x, e);
    }
  }

  lemma AboveCap(x: real, e: real)
    requires Abs(e) >= REACH
    ensures Level(x, e) >= CAP
  {
    var y := ScaledSquare(0.045, x - e / 2.0);
    assert Level(x, e) == y + 0.98875 * (e * e);
    Monotone(Abs(e), REACH, Abs(e));
    assert e * e == Abs(e) * Abs(e);
  }

  lemma InCore(x: real, e: real)
    requires Level(x, e) <= CORE
    ensures Common(x, e) <= ELLIPSE
  {
    QuadraticSign(86.0 / 39.0 * 0.045 - 0.036, 0.04 - 86.0 / 39.0 * 0.0225, 86.0 / 39.0 - 1.0, x, e);
  }

  // An estimate this close is inside the cap anywhere in the window.
  lemma WindowBelowCap(x: real, e: real)
    requires Abs(x) <= 500.0 && Abs(e) < 977.5
    ensures Level(x, e) < CAP
  {
    var xx := Product(1.0, (500.0 - x) * (500.0 + x)) by {
      var y := Scaled(500.0 - x, 500.0 + x, 500.0 + x);
    }
    var xe := Scaled(Abs(x), e, 977.5);
    assert Abs(x * e) == Abs(xe) <= 488750.0;
    assert xx == 250000.0 - x * x;
    var ee := Product(977.5 - Abs(e), 977.5 + Abs(e));
    assert ee == 955506.25 - e * e;
  }

  // Landing on the way down to half the estimate's error, from its own side.
  lemma LandsBelowCap(x: real, e: real)
    requires e / 2.0 <= x <= 500.0 && -977.5 < e < REACH
    ensures Level(x, e) < CAP
  {
    var d, w := x - e / 2.0, 500.0 - e / 2.0;
    var y := Product(1.0, d);
    Monotone(d, d, w);
    Monotone(w, d, w);
    assert Level(x, e) == 0.98875 * (e * e) + 0.045 * (d * d);
    assert 0.98875 * (e * e) + 0.045 * (w * w) == e * e - 22.5 * e + 11250.0;
    var room := Product(REACH - e, e + 977.5);
    assert room == 977500.0 + 22.5 * e - e * e;
  }

  // An edge of the slewing branch, clamped or not.
  lemma SlewLowers(x: real, y: real, e: real)
    requires x > 500.0 && Abs(e) < REACH
    requires x - (2.0 * x - e) / 300.0 <= y < x
    ensures Level(y, e) <= Level(x, e)
  {
    var fall := Product(x - y, x + y - e);
    assert Level(x, e) - Level(y, e) == 0.045 * fall;
  }

  // ---- Crossing the window --------------------------------------------------

  // An estimate off by almost the reach, entered from its far side, is carried across
  // the whole window.  The integral first takes it further away and then brings it back
  // by more: this function falls at every edge under the fast gain, and its cubic term
  // makes the near side of the window no lower than the far side.
  function Store(x: real, e: real): real {
    Squares(x, e) - 0.000005 * Cube(x)
  }

  // Under the slow gain this one does.
  function SlowStore(x: real, e: real): real {
    Store(x, e) + 5.0 * (e * e)
  }

  function StoreOf(slow: bool, x: real, e: real): real {
    if slow then SlowStore(x, e) else Store(x, e)
  }

  function FullOf(slow: bool): real {
    if slow then FULL + 5_000_000.0 else FULL
  }

  // The gain in force while so many samples are counted.
  function GainOf(slow: bool): real {
    if slow then DEFAULTS.ki else DEFAULTS.kiFast
  }

  // The energy of the fast gain.
  function Squares(x: real, e: real): real {
    0.09 * ((x - e / 300.0) * (x - e / 300.0)) + e * e
  }

  function Cube(x: real): real {
    x * x * x
  }

  // Its value at the near side with the estimate at the reach.
  const FULL := 1_022_826.0

  predicate IsStore(slow: bool, x: real, e: real, s: real) {
    s == StoreOf(slow, x, e)
  }

  ghost predicate Holds(slow: bool, x: real, e: real, bound: real) {
    forall s: real :: IsStore(slow, x, e, s) ==> s < bound
  }

  // The store is below its value at the near side.  Said through `IsStore`, this puts the
  // cubic before the solver only where a proof asks for it.
  ghost predicate BelowFull(slow: bool, x: real, e: real) {
    exists bound: real :: Holds(slow, x, e, bound) && bound <= FullOf(slow)
  }

  lemma StoreIsBelow(slow: bool, x: real, e: real)
    ensures BelowFull(slow, x, e) <==> StoreOf(slow, x, e) < FullOf(slow)
  {
    hide StoreOf;
    if BelowFull(slow, x, e) {
      assert IsStore(slow, x, e, StoreOf(slow, x, e));
    }
    if StoreOf(slow, x, e) < FullOf(slow) {
      assert Holds(slow, x, e, FullOf(slow));
    }
  }

  // Sample counts at which the gain next changes.
  function LastOf(slow: bool): real {
    if slow then 4_294_967_294.0 else 2999.0
  }

  // On the way across, the estimate off to the side it comes from, and enough samples to
  // go before the gain changes.
  ghost predicate Crosses(x: real, e: real, samples: nat) {
    && Abs(x) <= 500.0
    && -1012.0 <= e <= -977.5
    && BelowFull(samples >= 3000, x, e)
    && samples as real + (x + 500.0) / 2.5 <= LastOf(samples >= 3000)
  }

  lemma StoreAtReach(x: real)
    requires Abs(x) <= 500.0
    ensures Store(x, -1000.0) <= FULL
  {
    var xx := ScaledSquare(0.000005, x);
    var r := Product(1.0, x + 500.0);
    Monotone(x + 500.0, 0.0, 0.09 * (1480.0 / 3.0 - x) + xx - 0.0025 * x + 1.25);
    assert FULL - Store(x, -1000.0)
      == (x + 500.0) * (0.09 * (1480.0 / 3.0 - x) + 0.000005 * (x * x) - 0.0025 * x + 1.25);
  }

  lemma StoreAtEntry(slow: bool, x: real, e: real)
    requires Abs(x) <= 500.0 && -1000.0 < e <= -977.5
    ensures StoreOf(slow, x, e) < FullOf(slow)
  {
    FastAtEntry(x, e);
    NonNegative(1000.0 + e, 1000.0 - e);
    assert (1000.0 + e) * (1000.0 - e) == 1000000.0 - e * e;
    hide Store;
  }

  lemma FastAtEntry(x: real, e: real)
    requires Abs(x) <= 500.0 && -1000.0 < e <= -977.5
    ensures Store(x, e) < FULL
  {
    StoreAtReach(x);
    var slope := 1000.0 - e + 0.0003 * (2.0 * x + 10.0 / 3.0 - e / 300.0);
    var below := Product(e + 1000.0, slope);
    assert Store(x, -1000.0) - Store(x, e) == (e + 1000.0) * slope;
  }

  lemma StoreAtExit(slow: bool, x: real, e: real)
    requires x < -500.0 && StoreOf(slow, x, e) < FullOf(slow)
    ensures e > -1000.0
  {
    hide Store;
    if e <= -1000.0 {
      StoreBeyond(x, e);
      Monotone(-e, 1000.0, -e);
    }
  }

  lemma StoreBeyond(x: real, e: real)
    requires x < -500.0 && e <= -1000.0
    ensures Store(x, e) >= FULL
  {
    var u, w := -500.0 - x, -1000.0 - e;
    var square := ScaledSquare(0.09, u - w / 300.0);
    assert Cube(x) == x * x * x;
    var ww := ScaledSquare(1.0, w);
    var uu := ScaledSquare(1.0, u);
    var cube := Product(u, 750000.0 + 1500.0 * u + u * u);
    assert 0.09 * ((x - e / 300.0) * (x - e / 300.0)) == 22201.0 + 89.4 * (u - w / 300.0) + square;
    assert e * e == 1000000.0 + 2000.0 * w + ww;
    assert -(x * x * x) == 125000000.0 + cube;
  }

  // The store bounds the estimate all the way across.
  lemma StoreBounds(slow: bool, x: real, e: real)
    requires -500.0 <= x <= 500.0 && StoreOf(slow, x, e) < FullOf(slow)
    ensures e >= -1012.0
  {
    StoreAtLeast(x, e);
    hide Store;
    if e < -1012.0 {
      Monotone(-e, 1012.0, -e);
    }
  }

  lemma StoreAtLeast(x: real, e: real)
    requires x <= 500.0
    ensures Store(x, e) >= e * e - 625.0
  {
    var square := ScaledSquare(0.09, x - e / 300.0);
    CubeAtMost(x);
  }

  lemma CubeAtMost(x: real)
    requires x <= 500.0
    ensures x * x * x <= 125000000.0
  {
    var y := ScaledSquare(1.0, x + 250.0);
    var r := Product(y + 187500.0, 500.0 - x);
    assert r == 125000000.0 - x * x * x;
  }

  lemma StoreFalls(slow: bool, x: real, e: real)
    requires Abs(x) <= 500.0 && -1012.0 <= e <= -977.5
    ensures var y, f := NextX(EDGE_PERIOD, DEFAULTS.kp, GainOf(slow), x, e), NextE(GainOf(slow), x, e);
      && x - 4.1 <= y <= x - 2.5 && e - 0.15 <= f <= e + 0.15
      && StoreOf(slow, y, f) <= StoreOf(slow, x, e)
  {
    if slow {
      SlowFalls(x, e);
    } else {
      FastFalls(x, e);
    }
  }

  lemma FastFalls(x: real, e: real)
    requires Abs(x) <= 500.0 && -1012.0 <= e <= -977.5
    ensures var y, f := x + (e - 0.4003 * x) / 300.0, e - 0.0003 * x;
      && x - 4.1 <= y <= x - 2.5 && e - 0.15 <= f <= e + 0.15
      && Store(y, f) <= Store(x, e)
  {
    var y := x + (e - 0.4003 * x) / 300.0;
    hide Squares, Cube;
    var xx := ScaledSquare(1.0, x);
    var ee := ScaledSquare(1.0, e);
    AtLeast(e);
    SquaresFall(x, e, xx, ee);
    CubeFalls(x, x - y, xx);
  }

  lemma SlowFalls(x: real, e: real)
    requires Abs(x) <= 500.0 && -1012.0 <= e <= -977.5
    ensures var y, f := x + (e - 0.40005 * x) / 300.0, e - 0.00005 * x;
      && x - 4.1 <= y <= x - 2.5 && e - 0.15 <= f <= e + 0.15
      && SlowStore(y, f) <= SlowStore(x, e)
  {
    var y := x + (e - 0.40005 * x) / 300.0;
    hide Squares, Cube;
    var xx := ScaledSquare(1.0, x);
    var ee := ScaledSquare(1.0, e);
    AtLeast(e);
    SlowSquaresFall(x, e, xx, ee);
    CubeFalls(x, x - y, xx);
  }

  // Six times the energy of the slow gain.
  lemma SlowSquaresFall(x: real, e: real, xx: real, ee: real)
    requires xx == 1.0 * (x * x) && ee == 1.0 * (e * e) && xx >= 0.0
    ensures var y, f := x + (e - 0.40005 * x) / 300.0, e - 0.00005 * x;
      Squares(y, f) + 5.0 * (f * f) <= Squares(x, e) + 5.0 * (e * e) - 0.00023 * xx - 0.000001 * ee
  {
    var y, f := x + (e - 0.40005 * x) / 300.0, e - 0.00005 * x;
    assert Squares(y, f) + 5.0 * (f * f)
      == Squares(x, e) + 5.0 * (e * e) - 0.0003 * ((0.4 * (2.0 - 0.4 / 300.0) - 0.00005) * (x * x) + e * e / 300.0);
  }

  lemma AtLeast(e: real)
    requires e <= -977.5
    ensures 1.0 * (e * e) >= 954529.0
  {
    var ee := Product(-e - 977.0, -e + 977.0);
    assert ee == e * e - 954529.0;
  }

  lemma SquaresFall(x: real, e: real, xx: real, ee: real)
    requires xx == 1.0 * (x * x) && ee == 1.0 * (e * e) && xx >= 0.0
    ensures Squares(x + (e - 0.4003 * x) / 300.0, e - 0.0003 * x) <= Squares(x, e) - 0.00023 * xx - 0.000001 * ee
  {
    var y, f := x + (e - 0.4003 * x) / 300.0, e - 0.0003 * x;
    assert Squares(y, f)
      == Squares(x, e) - 0.0003 * ((0.4 * (2.0 - 0.4 / 300.0) - 0.0003) * (x * x) + e * e / 300.0);
  }

  lemma CubeFalls(x: real, d: real, xx: real)
    requires Abs(x) <= 500.0 && 2.5 <= d <= 4.1 && xx == 1.0 * (x * x) && xx >= 0.0
    ensures Cube(x) - Cube(x - d) <= 12.3 * xx + 25284.0
  {
    CubeDifference(x, d);
    hide Cube;
    var dd := Product(d, d);
    Monotone(d, d, 4.1);
    TermsAtMost(x, d, xx, dd);
  }

  lemma CubeDifference(x: real, d: real)
    ensures Cube(x) - Cube(x - d) == 3.0 * (d * (x * x)) - 3.0 * ((d * d) * x) + (d * d) * d
  {
  }

  lemma TermsAtMost(x: real, d: real, xx: real, dd: real)
    requires Abs(x) <= 500.0 && 2.5 <= d <= 4.1 && xx >= 0.0 && 0.0 <= dd <= 16.81
    ensures 3.0 * (d * xx) - 3.0 * (dd * x) + dd * d <= 12.3 * xx + 25284.0
  {
    NonNegative(xx, 4.1 - d);
    NonNegative(dd, 4.1 - d);
    NonNegative(dd, 500.0 + x);
  }

  // ---- One edge of the loop -------------------------------------------------

  function LoopLevel(p: Plant, l: Loop): real {
    Level(l.x, Residual(p, l))
  }

  predicate Safe(p: Plant, l: Loop) {
    LoopLevel(p, l) < CAP
  }

  ghost predicate Crossing(p: Plant, l: Loop) {
    || Crosses(l.x, Residual(p, l), l.servo.trackingSamples)
    || Crosses(-l.x, -Residual(p, l), l.servo.trackingSamples)
  }

  // Outside the window with an estimate inside the reach.
  predicate Outside(p: Plant, l: Loop) {
    IsLarge(DEFAULTS, l.x) && Abs(Residual(p, l)) < REACH
  }

  // The same, and not about to cross the window.
  predicate Returning(p: Plant, l: Loop) {
    Outside(p, l) && Outward(l, Residual(p, l)) > -977.5
  }

  predicate Tracks(l: Loop) {
    l.servo.phase == Tracking && !IsStep(DEFAULTS, l.x)
  }

  ghost predicate Guarded(p: Plant, l: Loop) {
    Tracks(l) && (Safe(p, l) || Crossing(p, l) || Outside(p, l))
  }

  predicate Near(p: Plant, l: Loop) {
    Tracks(l) && (Safe(p, l) || Returning(p, l))
  }

  // What one edge of the slewing branch does to the phase error, seen from its side.
  lemma SlewMoves(p: Plant, l: Loop, local: nat)
    requires WidelySteerable(p) && Tracks(l) && Outside(p, l)
    ensures var m := Tick(DEFAULTS, p, l, local);
      var x, y, e := Abs(l.x), Toward(l.x, m.x), Outward(l, Residual(p, l));
      && Tracks(m)
      && Residual(p, m) == Residual(p, l)
      && m.servo.trackingSamples == 0
      && -500.0 <= y < x
      && y >= x - (2.0 * x - e) / 300.0
  {
    WithinAuthority(DEFAULTS, p, l.x, Residual(p, l));
    PullAtMost(DEFAULTS, p, l);
    hide Tick, Step, Residual, Recoverable, Fall, LoopPull;
    EscapeStep(DEFAULTS, p, l, local);
    SlewTick(DEFAULTS, p, l, local);
  }

  lemma SlewLevels(p: Plant, l: Loop, local: nat)
    requires WidelySteerable(p) && Tracks(l) && Outside(p, l)
    ensures var m := Tick(DEFAULTS, p, l, local);
      && LoopLevel(p, m) <= LoopLevel(p, l)
      && (IsLarge(DEFAULTS, m.x) ==> Outside(p, m) && Outward(m, Residual(p, m)) == Outward(l, Residual(p, l)))
      && (!IsLarge(DEFAULTS, m.x) ==> Safe(p, m) || Crossing(p, m))
      && (!IsLarge(DEFAULTS, m.x) && Returning(p, l) ==> Safe(p, m))
  {
    var m := Tick(DEFAULTS, p, l, local);
    SlewMoves(p, l, local);
    hide Tick, Step, Residual, Level, StoreOf, FullOf, BelowFull;
    var x, y, e := Abs(l.x), Toward(l.x, m.x), Outward(l, Residual(p, l));
    SlewLowers(x, y, e);
    LevelEven(l.x, Residual(p, l));
    LevelEven(m.x, Residual(p, m));
    if y <= 500.0 {
      if e > -977.5 {
        LandsBelowCap(y, e);
      } else {
        StoreAtEntry(false, y, e);
        StoreIsBelow(false, y, e);
      }
    }
  }

  lemma WindowInPi(p: Plant, l: Loop)
    requires WidelySteerable(p) && l.servo.phase == Tracking
    requires Abs(l.x) <= 500.0 && Abs(Residual(p, l)) <= 1040.0
    ensures InPi(DEFAULTS, l)
  {
    ExtentInPi(DEFAULTS, p, l, ActiveKi(DEFAULTS, l.servo), 1040.0);
  }

  // An edge of the PI branch moves the phase error by a few nanoseconds.
  lemma PiMoves(p: Plant, l: Loop, local: nat)
    requires WidelySteerable(p) && l.servo.phase == Tracking
    requires Abs(l.x) <= 500.0 && Abs(Residual(p, l)) <= 1040.0
    ensures var m, k := Tick(DEFAULTS, p, l, local), ActiveKi(DEFAULTS, l.servo);
      && Tracks(m)
      && m.x == NextX(EDGE_PERIOD, DEFAULTS.kp, k, l.x, Residual(p, l))
      && Residual(p, m) == NextE(k, l.x, Residual(p, l))
      && m.servo.trackingSamples == (l.servo.trackingSamples + 1) % U32
      && LoopLevel(p, m) <= SHRINK * LoopLevel(p, l)
  {
    var k := ActiveKi(DEFAULTS, l.servo);
    WindowInPi(p, l);
    hide Tick, Step, Residual, InPi;
    PiTick(DEFAULTS, p, l, local, k);
    LevelShrinks(k, l.x, Residual(p, l));
    SmallMove(k, l.x, Residual(p, l));
  }

  lemma SmallMove(k: real, x: real, e: real)
    requires k == DEFAULTS.ki || k == DEFAULTS.kiFast
    requires Abs(x) <= 500.0 && Abs(e) <= 1040.0
    ensures Abs(NextX(EDGE_PERIOD, DEFAULTS.kp, k, x, e)) <= 505.0
  {
  }

  // Below the cap the level never rises, and an edge in the window makes it shrink.
  lemma SafeEdge(p: Plant, l: Loop, local: nat)
    requires WidelySteerable(p) && Tracks(l) && Safe(p, l)
    ensures var m := Tick(DEFAULTS, p, l, local);
      && Tracks(m) && Safe(p, m)
      && LoopLevel(p, m) <= LoopLevel(p, l)
      && (!IsLarge(DEFAULTS, l.x) ==> LoopLevel(p, m) <= SHRINK * LoopLevel(p, l))
      && (IsLarge(DEFAULTS, l.x) ==> Outside(p, l))
  {
    BelowCap(l.x, Residual(p, l));
    LevelSign(l.x, Residual(p, l));
    hide Tick, Step, Residual, Level;
    if IsLarge(DEFAULTS, l.x) {
      SlewMoves(p, l, local);
      SlewLevels(p, l, local);
    } else {
      PiMoves(p, l, local);
    }
  }

  lemma NextOdd(k: real, x: real, e: real)
    ensures NextX(EDGE_PERIOD, DEFAULTS.kp, k, -x, -e) == -NextX(EDGE_PERIOD, DEFAULTS.kp, k, x, e)
    ensures NextE(k, -x, -e) == -NextE(k, x, e)
  {
  }

  // Below the cap, still crossing, or out on the other side inside the reach.
  ghost predicate Onward(x: real, e: real, samples: nat) {
    Level(x, e) < CAP || Crosses(x, e, samples) || (x < -500.0 && -REACH < e < 0.0)
  }

  lemma StillCounting(x: real, y: real, samples: nat)
    requires -500.0 <= y <= x - 2.5
    requires samples as real + (x + 500.0) / 2.5 <= LastOf(samples >= 3000)
    ensures (samples + 1 >= 3000) == (samples >= 3000)
    ensures (samples + 1) as real + (y + 500.0) / 2.5 <= LastOf(samples >= 3000)
  {
  }

  // One edge further across, before the gain changes.
  lemma CrossOn(x: real, e: real, samples: nat)
    requires Crosses(x, e, samples)
    ensures var k := GainOf(samples >= 3000);
      var y, f := NextX(EDGE_PERIOD, DEFAULTS.kp, k, x, e), NextE(k, x, e);
      y <= x - 2.5 && Onward(y, f, samples + 1) && (Crosses(y, f, samples + 1) ==> f < 0.0)
  {
    var slow := samples >= 3000;
    StoreFalls(slow, x, e);
    var y, f := NextX(EDGE_PERIOD, DEFAULTS.kp, GainOf(slow), x, e), NextE(GainOf(slow), x, e);
    StoreIsBelow(slow, x, e);
    StoreIsBelow(slow, y, f);
    hide NextX, NextE, StoreOf, FullOf, Level, BelowFull;
    if y < -500.0 {
      StoreAtExit(slow, y, f);
    } else if f > -977.5 {
      WindowBelowCap(y, f);
    } else {
      StoreBounds(slow, y, f);
      StillCounting(x, y, samples);
    }
  }

  // While crossing one gain is in force.
  lemma CrossingIs(p: Plant, l: Loop)
    requires Crossing(p, l)
    ensures ActiveKi(DEFAULTS, l.servo) == GainOf(l.servo.trackingSamples >= 3000)
    ensures (l.servo.trackingSamples + 1) % U32 == l.servo.trackingSamples + 1
    ensures Abs(l.x) <= 500.0 && Abs(Residual(p, l)) <= 1012.0
    ensures Residual(p, l) < 0.0 ==> Crosses(l.x, Residual(p, l), l.servo.trackingSamples)
    ensures Residual(p, l) >= 0.0 ==> Crosses(-l.x, -Residual(p, l), l.servo.trackingSamples)
  {
    hide StoreOf, FullOf, BelowFull, Residual;
  }

  lemma OnwardIs(p: Plant, l: Loop)
    requires Onward(l.x, Residual(p, l), l.servo.trackingSamples)
      || Onward(-l.x, -Residual(p, l), l.servo.trackingSamples)
    ensures Safe(p, l) || Returning(p, l) || Crossing(p, l)
  {
    LevelEven(l.x, Residual(p, l));
    hide StoreOf, FullOf, BelowFull, Level, Residual;
  }

  // The phase error seen from the side that a crossing loop is heading for.
  function Leading(p: Plant, l: Loop): real {
    if Residual(p, l) < 0.0 then l.x else -l.x
  }

  lemma CrossEdge(p: Plant, l: Loop, local: nat)
    requires WidelySteerable(p) && Tracks(l) && Crossing(p, l)
    ensures var m := Tick(DEFAULTS, p, l, local);
      && Tracks(m)
      && (Safe(p, m) || Returning(p, m) || (Crossing(p, m) && Leading(p, m) <= Leading(p, l) - 2.5))
  {
    var x, e, n := l.x, Residual(p, l), l.servo.trackingSamples;
    var m := Tick(DEFAULTS, p, l, local);
    CrossingIs(p, l);
    PiMoves(p, l, local);
    hide Tick, Step, Residual, NextX, NextE, ActiveKi, Crosses, Level, LoopLevel, WidelySteerable;
    if e < 0.0 {
      CrossOn(x, e, n);
    } else {
      CrossOn(-x, -e, n);
      NextOdd(GainOf(n >= 3000), x, e);
    }
    OnwardIs(p, m);
    if Crossing(p, m) && !Safe(p, m) && !Returning(p, m) {
      SameHeading(p, l, m);
    }
  }

  // An edge changes the estimate too little to turn a crossing loop around.
  lemma SameHeading(p: Plant, l: Loop, m: Loop)
    requires Crossing(p, l) && Crossing(p, m)
    requires Abs(Residual(p, m) - Residual(p, l)) <= 1.0
    ensures Residual(p, l) < 0.0 <==> Residual(p, m) < 0.0
  {
    hide StoreOf, FullOf, BelowFull, Residual;
  }

  lemma GuardedEdge(p: Plant, l: Loop, local: nat)
    requires WidelySteerable(p) && Guarded(p, l)
    ensures Guarded(p, Tick(DEFAULTS, p, l, local))
    ensures Near(p, l) ==> Near(p, Tick(DEFAULTS, p, l, local))
  {
    hide Tick, Step, Residual, Level, Crosses;
    if Safe(p, l) {
      SafeEdge(p, l, local);
    } else if Outside(p, l) {
      SlewMoves(p, l, local);
      SlewLevels(p, l, local);
    } else {
      CrossEdge(p, l, local);
    }
  }

  // ---- Runs -----------------------------------------------------------------

  lemma {:induction false} GuardedForever(p: Plant, l: Loop, from: nat, n: nat)
    requires WidelySteerable(p) && Guarded(p, LoopAt(DEFAULTS, p, l, from))
    ensures Guarded(p, LoopAt(DEFAULTS, p, l, from + n))
    ensures Near(p, LoopAt(DEFAULTS, p, l, from)) ==> Near(p, LoopAt(DEFAULTS, p, l, from + n))
  {
    hide Tick, Step, Residual, Level, Crossing, Outside;
    if n > 0 {
      GuardedForever(p, l, from, n - 1);
      GuardedEdge(p, LoopAt(DEFAULTS, p, l, from + n - 1), p.stamp(from + n - 1));
    }
  }

  lemma {:induction false} SafeForever(p: Plant, l: Loop, from: nat, n: nat)
    requires WidelySteerable(p)
    requires Tracks(LoopAt(DEFAULTS, p, l, from)) && Safe(p, LoopAt(DEFAULTS, p, l, from))
    ensures var s, t := LoopAt(DEFAULTS, p, l, from), LoopAt(DEFAULTS, p, l, from + n);
      Tracks(t) && Safe(p, t) && LoopLevel(p, t) <= LoopLevel(p, s)
  {
    hide Tick, Step, Residual, Level;
    if n > 0 {
      SafeForever(p, l, from, n - 1);
      SafeEdge(p, LoopAt(DEFAULTS, p, l, from + n - 1), p.stamp(from + n - 1));
    }
  }

  // From wherever it is, the loop gets to the window.
  lemma WideLands(p: Plant, l: Loop, from: nat) returns (m: nat)
    requires WidelySteerable(p) && Guarded(p, LoopAt(DEFAULTS, p, l, from))
    ensures m >= from && !IsLarge(DEFAULTS, LoopAt(DEFAULTS, p, l, m).x)
    ensures Guarded(p, LoopAt(DEFAULTS, p, l, m))
  {
    var t := LoopAt(DEFAULTS, p, l, from);
    m := from;
    hide Tick, Step, Residual, Level, StoreOf, FullOf, BelowFull;
    if IsLarge(DEFAULTS, t.x) {
      if Safe(p, t) {
        BelowCap(t.x, Residual(p, t));
      }
      WithinAuthority(DEFAULTS, p, t.x, Residual(p, t));
      EscapeStep(DEFAULTS, p, t, 0);
      hide Fall, Recoverable;
      var fall := Fall(DEFAULTS, p, t.x, Residual(p, t));
      m := Escapes(DEFAULTS, p, l, from, Edges(Abs(t.x) - 500.0, fall), fall);
    }
    GuardedForever(p, l, from, m - from);
  }

  // A crossing loop is across within the edges its distance allows.
  lemma {:induction false} CrossOver(p: Plant, l: Loop, from: nat, budget: nat) returns (m: nat)
    requires WidelySteerable(p)
    requires var t := LoopAt(DEFAULTS, p, l, from);
      Tracks(t) && Crossing(p, t) && Leading(p, t) + 500.0 <= 2.5 * budget as real
    ensures m >= from && Near(p, LoopAt(DEFAULTS, p, l, m))
    decreases budget
  {
    hide Tick, Step, Residual, Level, StoreOf, FullOf, BelowFull;
    CrossEdge(p, LoopAt(DEFAULTS, p, l, from), p.stamp(from));
    m := from + 1;
    var t := LoopAt(DEFAULTS, p, l, m);
    if !Near(p, t) {
      LeadingWithin(p, t);
      m := CrossOver(p, l, from + 1, budget - 1);
    }
  }

  lemma LeadingWithin(p: Plant, l: Loop)
    requires Crossing(p, l)
    ensures Abs(Leading(p, l)) <= 500.0
  {
  }

  // Below the cap at last, in the window.
  lemma BecomesSafe(p: Plant, l: Loop, from: nat) returns (m: nat)
    requires WidelySteerable(p) && Guarded(p, LoopAt(DEFAULTS, p, l, from))
    ensures m >= from && Tracks(LoopAt(DEFAULTS, p, l, m)) && Safe(p, LoopAt(DEFAULTS, p, l, m))
  {
    hide Tick, Step, Residual, Level, Crosses;
    m := WideLands(p, l, from);
    if !Safe(p, LoopAt(DEFAULTS, p, l, m)) {
      LeadingWithin(p, LoopAt(DEFAULTS, p, l, m));
      var across := CrossOver(p, l, m, 400);
      m := WideLands(p, l, across);
      GuardedForever(p, l, across, m - across);
    }
  }

  // The level shrinks at every edge in the window, and the loop is always back there.
  lemma {:induction false} ToCore(p: Plant, l: Loop, from: nat, budget: nat) returns (m: nat)
    requires WidelySteerable(p)
    requires Tracks(LoopAt(DEFAULTS, p, l, from)) && Safe(p, LoopAt(DEFAULTS, p, l, from))
    requires Times(Pow(SHRINK, budget), LoopLevel(p, LoopAt(DEFAULTS, p, l, from))) <= CORE
    ensures m >= from
    ensures Tracks(LoopAt(DEFAULTS, p, l, m)) && LoopLevel(p, LoopAt(DEFAULTS, p, l, m)) <= CORE
    decreases budget
  {
    hide Tick, Step, Residual, Level, Crosses, LoopAt, LoopLevel;
    var level := LoopLevel(p, LoopAt(DEFAULTS, p, l, from));
    m := from;
    assert Times(1.0, level) == level;
    if level > CORE {
      hide Times, Safe;
      m := ShrinksOnce(p, l, from, budget - 1);
      m := ToCore(p, l, m, budget - 1);
    }
  }

  lemma SafeInWindow(p: Plant, l: Loop, from: nat) returns (m: nat)
    requires WidelySteerable(p)
    requires Tracks(LoopAt(DEFAULTS, p, l, from)) && Safe(p, LoopAt(DEFAULTS, p, l, from))
    ensures var s, t := LoopAt(DEFAULTS, p, l, from), LoopAt(DEFAULTS, p, l, m);
      m >= from && Tracks(t) && Safe(p, t) && !IsLarge(DEFAULTS, t.x) && LoopLevel(p, t) <= LoopLevel(p, s)
  {
    hide LoopAt, Safe, Crossing, Outside, LoopLevel;
    m := WideLands(p, l, from);
    SafeForever(p, l, from, m - from);
  }

  // Down to the window and one edge there.
  lemma ShrinksOnce(p: Plant, l: Loop, from: nat, budget: nat) returns (m: nat)
    requires WidelySteerable(p)
    requires Tracks(LoopAt(DEFAULTS, p, l, from)) && Safe(p, LoopAt(DEFAULTS, p, l, from))
    ensures m >= from && Tracks(LoopAt(DEFAULTS, p, l, m)) && Safe(p, LoopAt(DEFAULTS, p, l, m))
    ensures Times(Pow(SHRINK, budget), LoopLevel(p, LoopAt(DEFAULTS, p, l, m)))
      <= Times(Pow(SHRINK, budget + 1), LoopLevel(p, LoopAt(DEFAULTS, p, l, from)))
  {
    PowSign(budget);
    assert Pow(SHRINK, budget + 1) == SHRINK * Pow(SHRINK, budget);
    hide Tick, Step, Safe, Tracks, LoopLevel, WidelySteerable, Times, Pow;
    var landed := SafeInWindow(p, l, from);
    var t := LoopAt(DEFAULTS, p, l, landed);
    m := landed + 1;
    SafeEdge(p, t, p.stamp(landed));
    hide LoopAt;
    Shrunk(Pow(SHRINK, budget), LoopLevel(p, LoopAt(DEFAULTS, p, l, from)), LoopLevel(p, t),
           LoopLevel(p, LoopAt(DEFAULTS, p, l, m)));
  }

  lemma {:induction false} PowSign(n: nat)
    ensures Pow(SHRINK, n) > 0.0
  {
    if n > 0 {
      PowSign(n - 1);
    }
  }

  lemma Shrunk(q: real, level: real, landed: real, next: real)
    requires q > 0.0 && landed <= level && next <= SHRINK * landed
    ensures Times(q, next) <= Times(SHRINK * q, level)
  {
    Monotone(q, next, SHRINK * level);
  }

  // Enough edges in the window for a level below the cap.
  lemma CoreBudget(level: real) returns (budget: nat)
    requires 0.0 <= level < CAP
    ensures Times(Pow(SHRINK, budget), level) <= CORE
  {
    budget := 42_100_000;
    PowFalls(SHRINK, 0.000006, budget);
    var q := Pow(SHRINK, budget);
    hide Pow;
    assert q * 253.6 <= 1.0;
    NonNegative(q, 988_750.0 - level);
  }

  // Enough samples to go before the gain changes to cross the window.
  predicate Steady(samples: nat) {
    samples <= 2500 || 3000 <= samples < U32 - 500
  }

  // A tracking loop whose estimate is inside the reach.  Only when it starts in the
  // window, within 22.5 ppb of the reach, must the gain not be about to change.
  predicate WithinReach(p: Plant, l: Loop) {
    && Tracks(l)
    && Abs(Residual(p, l)) < REACH
    && (IsLarge(DEFAULTS, l.x) || Abs(Residual(p, l)) < 977.5 || Steady(l.servo.trackingSamples))
  }

  lemma StartsGuarded(p: Plant, l: Loop)
    requires WithinReach(p, l)
    ensures Guarded(p, l)
  {
    var x, e, slow := l.x, Residual(p, l), l.servo.trackingSamples >= 3000;
    hide StoreOf, FullOf, BelowFull, Level, Residual;
    if !IsLarge(DEFAULTS, x) {
      if Abs(e) < 977.5 {
        WindowBelowCap(x, e);
      } else if e < 0.0 {
        StoreAtEntry(slow, x, e);
        StoreIsBelow(slow, x, e);
      } else {
        StoreAtEntry(slow, -x, -e);
        StoreIsBelow(slow, -x, -e);
      }
    }
  }

  lemma CoreSettles(p: Plant, l: Loop)
    requires Tracks(l) && LoopLevel(p, l) <= CORE
    ensures Settling(p, l)
  {
    InCore(l.x, Residual(p, l));
  }

  // With an estimate within 1000 ppb of the true drift at edge `from`, the default loop
  // locks for good, from any phase error that is not a step.  It tracks all the way; from
  // edge m on the PI branch handles every sample and the energy shrinks geometrically.
  lemma DefaultLock(p: Plant, l: Loop, from: nat) returns (m: nat)
    requires WidelySteerable(p) && WithinReach(p, LoopAt(DEFAULTS, p, l, from))
    ensures m >= from
    ensures forall n: nat :: n >= from ==> LoopAt(DEFAULTS, p, l, n).servo.phase == Tracking
    ensures LocksFrom(p, l, m)
  {
    StartsGuarded(p, LoopAt(DEFAULTS, p, l, from));
    AlwaysTracking(p, l, from);
    hide Tick, Step, Residual, Level, Crosses, InPiFrom, ShrinksFrom, LoopAt, Safe, Guarded, WithinReach;
    var safe := BecomesSafe(p, l, from);
    var budget := LevelBudget(p, LoopAt(DEFAULTS, p, l, safe));
    m := ToCore(p, l, safe, budget);
    CoreSettles(p, LoopAt(DEFAULTS, p, l, m));
    SettledInPi(p, l, m);
    SettledShrinks(p, l, m);
  }

  lemma LevelBudget(p: Plant, l: Loop) returns (budget: nat)
    requires Safe(p, l)
    ensures Times(Pow(SHRINK, budget), LoopLevel(p, l)) <= CORE
  {
    LevelSign(l.x, Residual(p, l));
    budget := CoreBudget(LoopLevel(p, l));
  }

  lemma AlwaysTracking(p: Plant, l: Loop, from: nat)
    requires WidelySteerable(p) && Guarded(p, LoopAt(DEFAULTS, p, l, from))
    ensures forall n: nat :: n >= from ==> LoopAt(DEFAULTS, p, l, n).servo.phase == Tracking
  {
    hide Tick, Step, Residual, Safe, Crossing, Outside;
    forall n: nat | n >= from
      ensures LoopAt(DEFAULTS, p, l, n).servo.phase == Tracking
    {
      GuardedForever(p, l, from, n - from);
    }
  }

  lemma SettledInPi(p: Plant, l: Loop, m: nat)
    requires WidelySteerable(p) && Settling(p, LoopAt(DEFAULTS, p, l, m))
    ensures InPiFrom(p, l, m)
  {
    hide Tick, Step, InPi, CommonEnergy, LoopAt;
    forall n: nat | n >= m
      ensures InPi(DEFAULTS, LoopAt(DEFAULTS, p, l, n))
    {
      SettlesForever(p, l, m, n - m);
    }
  }

  lemma SettledShrinks(p: Plant, l: Loop, m: nat)
    requires WidelySteerable(p) && Settling(p, LoopAt(DEFAULTS, p, l, m))
    ensures ShrinksFrom(p, l, m)
  {
    hide Tick, Step, InPi, CommonEnergy, LoopAt;
    forall n: nat | n >= m
      ensures CommonEnergy(p, LoopAt(DEFAULTS, p, l, n)) <= Pow(CONTRACTION, n - m) * ELLIPSE
    {
      SettlesForever(p, l, m, n - m);
    }
  }

  ghost predicate InPiFrom(p: Plant, l: Loop, m: nat) {
    forall n: nat :: n >= m ==> InPi(DEFAULTS, LoopAt(DEFAULTS, p, l, n))
  }

  ghost predicate ShrinksFrom(p: Plant, l: Loop, m: nat) {
    forall n: nat :: n >= m ==>
      CommonEnergy(p, LoopAt(DEFAULTS, p, l, n)) <= Pow(CONTRACTION, n - m) * ELLIPSE
  }

  ghost predicate LocksFrom(p: Plant, l: Loop, m: nat) {
    InPiFrom(p, l, m) && ShrinksFrom(p, l, m)
  }

  // Outside the window, unless the estimate errs by the reach or more towards the other
  // side: the loop ends up in the PI branch for good if and only if the estimate is
  // inside the reach.
  lemma DefaultLockIff(p: Plant, l: Loop)
    requires WidelySteerable(p) && InSlew(DEFAULTS, l) && Abs(l.servo.drift) <= DEFAULTS.maxPpb
    requires Outward(l, Residual(p, l)) > -REACH
    ensures (exists m: nat :: InPiFrom(p, l, m)) <==> Outward(l, Residual(p, l)) < REACH
  {
    if Outward(l, Residual(p, l)) < REACH {
      assert LoopAt(DEFAULTS, p, l, 0) == l;
      var m := DefaultLock(p, l, 0);
      assert InPiFrom(p, l, m);
    } else {
      assert Parked(DEFAULTS, p, l);
      hide Tick, Step, Residual;
      forall m: nat
        ensures !InPiFrom(p, l, m)
      {
        ParkedForever(DEFAULTS, p, l, m);
        assert !InPi(DEFAULTS, LoopAt(DEFAULTS, p, l, m));
      }
    }
  }

  // For every tolerance there is an edge after which the energy stays below it.
  lemma DefaultConverges(p: Plant, l: Loop, from: nat, tolerance: real) returns (m: nat)
    requires WidelySteerable(p) && WithinReach(p, LoopAt(DEFAULTS, p, l, from)) && tolerance > 0.0
    ensures forall n: nat :: n >= m ==> CommonEnergy(p, LoopAt(DEFAULTS, p, l, n)) <= tolerance
  {
    hide Tick, Step, Common, Residual, InPi, WithinReach;
    var locked := DefaultLock(p, l, from);
    m := Settles(p, l, locked, tolerance);
  }
}
