/**
 Why a loop that starts in the window with an estimate close to the reach must not be
 about to change its gain.

 The sample counter survives a reset, so a loop that has just been acquired may use up its
 fast samples halfway across the window.  By then the fast gain has taken the estimate
 further from the true drift, and the slow gain does not bring it back: the loop leaves
 the window out of reach, and parks.
 */
module StaleLock {
  import opened Reals
  import opened Words
  import opened PiServo
  import opened ServoLoop
  import opened SlewRegime
  import opened DefaultLoop
  import opened WideLock

  // A count of samples that leaves 121 fast ones.
  const FIRST := 2879

  function Square(x: real): real {
    x * x
  }

  // On the way across: how far the loop has come since sample FIRST, and how far the
  // estimate is from the true drift, under the fast gain and then under the slow one.
  predicate Stale(x: real, e: real, n: nat) {
    && FIRST <= n
    && -500.0 + 2.6 * (n - FIRST) as real <= x <= 500.0
    && if n < 3000 then
         && x <= -499.5 + 4.1 * (n - FIRST) as real
         && e <= 1000.0 + 0.15 * (n - FIRST) as real
         && e + 0.0000365 * Square(x) >= 1008.1
       else
         && e <= 1018.15 + 0.025 * (n - 3000) as real
         && e + (if x < 0.0 then 0.0 else 0.0000097 * Square(x)) >= 1006.8
  }

  // Across the window, and out of reach.
  predicate Lost(x: real, e: real) {
    500.0 < x <= 505.0 && REACH < e <= 1040.0
  }

  lemma SquareWithin(x: real, m: real)
    requires -m <= x <= m
    ensures 0.0 <= Square(x) <= Square(m)
  {
    NonNegative(m - x, m + x);
    var xx := ScaledSquare(1.0, x);
  }

  // What the fast gain adds on the far side of the window.
  lemma FastAdds(x: real, v: real)
    requires x <= 0.0 && 0.0 <= v <= 4.1
    ensures 0.0000365 * Square(x + v) - 0.0003 * x >= 0.0000365 * Square(x)
  {
    NonNegative(-x, 0.0003 - 0.000073 * v);
    var vv := ScaledSquare(0.0000365, v);
  }

  // What the slow gain takes away on the near side.
  lemma SlowTakes(x: real, v: real)
    requires x >= 0.0 && v >= 2.6
    ensures 0.0000097 * Square(x + v) - 0.00005 * x >= 0.0000097 * Square(x)
  {
    NonNegative(x, 0.0000194 * v - 0.00005);
    var vv := ScaledSquare(0.0000097, v);
  }

  lemma FastOn(x: real, e: real, n: nat)
    requires Stale(x, e, n) && n < 3000
    ensures Abs(x) <= 500.0 && Abs(e) <= 1040.0
    ensures Stale(NextX(EDGE_PERIOD, DEFAULTS.kp, DEFAULTS.kiFast, x, e), NextE(DEFAULTS.kiFast, x, e), n + 1)
  {
    var v := (e - 0.4003 * x) / 300.0;
    SquareWithin(x, 500.0);
    FastAdds(x, v);
    if n == 2999 {
      SquareWithin(x + v, 185.4);
    }
  }

  lemma SlowOn(x: real, e: real, n: nat)
    requires Stale(x, e, n) && n >= 3000
    ensures Abs(x) <= 500.0 && Abs(e) <= 1040.0 && n < 3300
    ensures var y, f := NextX(EDGE_PERIOD, DEFAULTS.kp, DEFAULTS.ki, x, e), NextE(DEFAULTS.ki, x, e);
      Lost(y, f) || Stale(y, f, n + 1)
  {
    var v := (e - 0.40005 * x) / 300.0;
    SquareWithin(x, 500.0);
    if x >= 0.0 {
      SlowTakes(x, v);
      SquareWithin(x + v, 505.0);
    } else {
      var yy := ScaledSquare(1.0, x + v);
    }
  }

  lemma StaleOn(x: real, e: real, n: nat)
    requires Stale(x, e, n)
    ensures Abs(x) <= 500.0 && Abs(e) <= 1040.0 && (n + 1) % U32 == n + 1 <= 3300
    ensures var k := if n < 3000 then DEFAULTS.kiFast else DEFAULTS.ki;
      var y, f := NextX(EDGE_PERIOD, DEFAULTS.kp, k, x, e), NextE(k, x, e);
      Lost(y, f) || Stale(y, f, n + 1)
  {
    hide Stale, Lost, NextX, NextE;
    if n < 3000 {
      FastOn(x, e, n);
    } else {
      SlowOn(x, e, n);
    }
  }

  lemma StaleEdge(p: Plant, l: Loop, local: nat)
    requires WidelySteerable(p) && Tracks(l) && Stale(l.x, Residual(p, l), l.servo.trackingSamples)
    ensures var m := Tick(DEFAULTS, p, l, local);
      && Tracks(m)
      && (Lost(m.x, Residual(p, m)) ||
          (Stale(m.x, Residual(p, m), m.servo.trackingSamples) &&
           m.servo.trackingSamples == l.servo.trackingSamples + 1 <= 3300))
  {
    var x, e, n := l.x, Residual(p, l), l.servo.trackingSamples;
    assert ActiveKi(DEFAULTS, l.servo) == if n < 3000 then DEFAULTS.kiFast else DEFAULTS.ki;
    StaleOn(x, e, n);
    hide Tick, Step, Residual, Stale, Lost, NextX, NextE, LoopLevel, WidelySteerable, ActiveKi, IsStep;
    PiMoves(p, l, local);
  }

  lemma {:induction false} Loses(p: Plant, l: Loop, from: nat) returns (m: nat)
    requires WidelySteerable(p)
    requires var t := LoopAt(DEFAULTS, p, l, from);
      Tracks(t) && Stale(t.x, Residual(p, t), t.servo.trackingSamples) && t.servo.trackingSamples <= 3300
    ensures var t := LoopAt(DEFAULTS, p, l, m); m > from && Tracks(t) && Lost(t.x, Residual(p, t))
    decreases 3300 - LoopAt(DEFAULTS, p, l, from).servo.trackingSamples
  {
    hide Tick, Step, Residual, Stale, Lost;
    m := from + 1;
    StaleEdge(p, LoopAt(DEFAULTS, p, l, from), p.stamp(from));
    var t := LoopAt(DEFAULTS, p, l, m);
    if !Lost(t.x, Residual(p, t)) {
      m := Loses(p, l, m);
    }
  }

  lemma StartsStale(x: real, e: real)
    requires -500.0 <= x <= -499.5 && 999.0 <= e < REACH
    ensures Stale(x, e, FIRST)
  {
    NonNegative(-499.5 - x, -x);
  }

  lemma LostIsParked(p: Plant, l: Loop)
    requires WidelySteerable(p) && Tracks(l) && Lost(l.x, Residual(p, l))
    ensures Parked(DEFAULTS, p, l)
  {
  }

  lemma {:induction false} StaysParked(p: Plant, l: Loop, from: nat, n: nat)
    requires WidelySteerable(p) && Parked(DEFAULTS, p, LoopAt(DEFAULTS, p, l, from))
    ensures Parked(DEFAULTS, p, LoopAt(DEFAULTS, p, l, from + n))
    ensures !InPi(DEFAULTS, LoopAt(DEFAULTS, p, l, from + n))
  {
    hide Tick, Step, Residual;
    if n > 0 {
      StaysParked(p, l, from, n - 1);
      ParkedStep(DEFAULTS, p, LoopAt(DEFAULTS, p, l, from + n - 1), p.stamp(from + n - 1));
    }
  }

  lemma NeverBack(p: Plant, l: Loop, m: nat)
    requires WidelySteerable(p) && Parked(DEFAULTS, p, LoopAt(DEFAULTS, p, l, m))
    ensures forall n: nat :: n >= m ==> !InPi(DEFAULTS, LoopAt(DEFAULTS, p, l, n))
  {
    hide LoopAt, Parked, InPi, WidelySteerable;
    forall n: nat | n >= m
      ensures !InPi(DEFAULTS, LoopAt(DEFAULTS, p, l, n))
    {
      StaysParked(p, l, m, n - m);
    }
  }

  // Half a nanosecond inside the far threshold, within a ppb of the reach and with 121 fast
  // samples left, the loop crosses the window and parks for ever on the other side.
  lemma StaleSamplesPark(p: Plant, l: Loop) returns (m: nat)
    requires WidelySteerable(p) && l.servo.phase == Tracking
    requires -500.0 <= l.x <= -499.5 && 999.0 <= Residual(p, l) < REACH && l.servo.trackingSamples == FIRST
    ensures Parked(DEFAULTS, p, LoopAt(DEFAULTS, p, l, m))
    ensures forall n: nat :: n >= m ==> !InPi(DEFAULTS, LoopAt(DEFAULTS, p, l, n))
  {
    assert Tracks(l) && LoopAt(DEFAULTS, p, l, 0) == l;
    StartsStale(l.x, Residual(p, l));
    hide Stale, LoopAt, Lost, Parked, InPi, Tracks, WidelySteerable, Residual;
    m := Loses(p, l, 0);
    LostIsParked(p, LoopAt(DEFAULTS, p, l, m));
    NeverBack(p, l, m);
  }

  // ---- A servo that gets there ----------------------------------------------

  // So many edges with no phase error, 300 to the second.
  function Quiet(n: nat): (events: seq<Event>)
    ensures |events| == n
  {
    seq(n, i requires 0 <= i < n => Sampled(0.0, 2_000_000_000 + i * 3_333_333))
  }

  const ACQUIRED := [Sampled(0.0, 0), Sampled(0.0, 2_000_000_000)]

  // Acquire without an error, track until 121 fast samples are left, reset, and watch the
  // first edge of a second window.
  function History(): seq<Event> {
    ACQUIRED + Quiet(FIRST) + [WasReset, Sampled(1496.0, 60_000_000_000)]
  }

  lemma RunFirst(c: Config, s: State, events: seq<Event>, e: Event)
    ensures Run(c, s, events + [e]) == Advance(c, Run(c, s, events), e)
  {
    assert (events + [e])[..|events|] == events;
  }

  lemma RunNone(c: Config, s: State)
    ensures Run(c, s, []) == s
  {
  }

  const TRACKED := State(0.0, 0.0, 0, 2_000_000_000, 0.0, 0.0, Tracking, 0)

  lemma AcquiredRun()
    ensures Run(DEFAULTS, ZERO, ACQUIRED) == TRACKED
  {
    RunNone(DEFAULTS, ZERO);
    RunFirst(DEFAULTS, ZERO, [], Sampled(0.0, 0));
    RunFirst(DEFAULTS, ZERO, [Sampled(0.0, 0)], Sampled(0.0, 2_000_000_000));
    assert [] + [Sampled(0.0, 0)] == [Sampled(0.0, 0)];
    assert [Sampled(0.0, 0)] + [Sampled(0.0, 2_000_000_000)] == ACQUIRED;
    var s := Advance(DEFAULTS, ZERO, Sampled(0.0, 0));
    assert s == ZERO.(phase := Acquiring);
  }

  lemma {:induction false} QuietRun(n: nat)
    requires n <= FIRST
    ensures Run(DEFAULTS, ZERO, ACQUIRED + Quiet(n)) == TRACKED.(trackingSamples := n)
  {
    if n == 0 {
      assert ACQUIRED + Quiet(0) == ACQUIRED;
      AcquiredRun();
    } else {
      QuietRun(n - 1);
      var last := Quiet(n)[n - 1];
      assert ACQUIRED + Quiet(n) == (ACQUIRED + Quiet(n - 1)) + [last];
      RunFirst(DEFAULTS, ZERO, ACQUIRED + Quiet(n - 1), last);
      hide Run, Quiet;
      ZeroSample(n - 1, last.local);
    }
  }

  lemma ZeroSample(n: nat, local: nat)
    requires n < 3000
    ensures Step(DEFAULTS, TRACKED.(trackingSamples := n), 0.0, local).next == TRACKED.(trackingSamples := n + 1)
  {
  }

  // The servo once it watches again.
  lemma HistoryRun()
    ensures Run(DEFAULTS, ZERO, History())
      == State(1496.0, 0.0, 60_000_000_000, 2_000_000_000, 0.0, 0.0, Acquiring, FIRST)
  {
    QuietRun(FIRST);
    var events := ACQUIRED + Quiet(FIRST);
    RunFirst(DEFAULTS, ZERO, events, WasReset);
    RunFirst(DEFAULTS, ZERO, events + [WasReset], Sampled(1496.0, 60_000_000_000));
    assert History() == (events + [WasReset]) + [Sampled(1496.0, 60_000_000_000)];
  }

  // The edge that ends that window, two seconds later, finds the phase error 1999 ns lower:
  // that is an estimate of -999.5 ppb, and 2879 samples.  If the true drift is zero from
  // then on, the loop is where it crosses the window and parks.
  lemma HistoryParks(p: Plant) returns (m: nat)
    requires p.T == EDGE_PERIOD && p.a == 0.0 && p.stamp(0) == 62_000_000_000
    ensures var l := LoopAt(DEFAULTS, p, Loop(Run(DEFAULTS, ZERO, History()), -503.0, 0.0), 1);
      && l.servo.phase == Tracking && l.servo.trackingSamples == FIRST && l.servo.drift == -999.5
      && -500.0 <= l.x <= -499.5
      && Parked(DEFAULTS, p, LoopAt(DEFAULTS, p, l, m))
      && forall n: nat :: n >= m ==> !InPi(DEFAULTS, LoopAt(DEFAULTS, p, l, n))
  {
    HistoryRun();
    var start := Loop(Run(DEFAULTS, ZERO, History()), -503.0, 0.0);
    assert LoopAt(DEFAULTS, p, start, 0) == start;
    var l := LoopAt(DEFAULTS, p, start, 1);
    assert l == Tick(DEFAULTS, p, start, 62_000_000_000);
    SecondWindow(p);
    hide Tick, Step, Run, History, LoopAt, Parked, InPi;
    m := StaleSamplesPark(p, l);
  }

  lemma SecondWindow(p: Plant)
    requires p.T == EDGE_PERIOD && p.a == 0.0
    ensures var s := State(1496.0, 0.0, 60_000_000_000, 2_000_000_000, 0.0, 0.0, Acquiring, FIRST);
      Tick(DEFAULTS, p, Loop(s, -503.0, 0.0), 62_000_000_000)
        == Loop(s.(offset1 := -503.0, local1 := 62_000_000_000, drift := -999.5, lastFreq := -999.5,
                   phase := Tracking), -503.0 + 999.5 / 300.0, -999.5)
  {
    assert Acquired(0.0, 1496.0, -503.0, 60_000_000_000, 62_000_000_000) == -999.5;
    assert Window(60_000_000_000, 62_000_000_000) >= 2.0;
  }
}
