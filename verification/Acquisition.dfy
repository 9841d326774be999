/**
 Frequency acquisition: the slope of the phase error over a window seeds the
 drift estimate.

 The clock backends turn a correction into an edge period by
 `nominal * (1 - ppb / 1e9)`.  Against edges and references that are evenly
 spaced, one window makes the edge period exactly the reference period, provided
 the correction in force during the window was the stored drift estimate.
 */
module Acquisition {
  import opened Reals
  import opened PiServo

  // The edge period that a correction gives; the nominal period is the one at
  // zero correction.
  function EdgePeriod(nominal: real, ppb: real): real {
    nominal * (1.0 - ppb / NSEC_PER_SEC)
  }

  function Samples(offsets: seq<real>, locals: seq<nat>): (events: seq<Event>)
    requires |offsets| == |locals|
    ensures |events| == |offsets|
  {
    seq(|offsets|, i requires 0 <= i < |offsets| => Sampled(offsets[i], locals[i]))
  }

  // Edge times after the first that all fall short of the acquisition window.
  predicate Short(c: Config, locals: seq<nat>) {
    forall i :: 0 < i < |locals| ==>
      locals[0] < locals[i] && Window(locals[0], locals[i]) < c.freqEstInterval
  }

  // While the window has not elapsed the servo only remembers the first and the
  // latest sample: nothing in between can influence the estimate.
  lemma {:induction false} Watching(c: Config, s: State, offsets: seq<real>, locals: seq<nat>)
    requires s.phase == Idle
    requires 0 < |offsets| == |locals|
    requires Short(c, locals)
    ensures var m := Run(c, s, Samples(offsets, locals));
      && m.phase == Acquiring
      && m.offset0 == offsets[0] && m.local0 == locals[0]
      && m.drift == s.drift && m.lastFreq == s.lastFreq
      && m.trackingSamples == s.trackingSamples
    decreases |offsets|
  {
    var n := |offsets| - 1;
    var events := Samples(offsets, locals);
    assert events[..n] == Samples(offsets[..n], locals[..n]);
    hide Window, Acquired;
    if n == 0 {
      assert events[..n] == [];
      assert Run(c, s, events[..n]) == s;
    } else {
      assert Short(c, locals[..n]) by {
        forall i | 0 < i < n
          ensures locals[..n][0] < locals[..n][i] && Window(locals[..n][0], locals[..n][i]) < c.freqEstInterval
        {
          assert locals[0] < locals[i];
        }
      }
      Watching(c, s, offsets[..n], locals[..n]);
      assert locals[0] < locals[n];
    }
  }

  // The sample that completes the window puts the servo into tracking with the
  // estimate that the first and the last sample give.
  lemma Acquires(c: Config, s: State, offsets: seq<real>, locals: seq<nat>, offset: real, local: nat)
    requires s.phase == Idle
    requires 0 < |offsets| == |locals|
    requires Short(c, locals)
    requires locals[0] < local && Window(locals[0], local) >= c.freqEstInterval
    ensures var o := Step(c, Run(c, s, Samples(offsets, locals)), offset, local);
      && o.report == Locked
      && o.next.phase == Tracking
      && o.ppb == o.next.drift
      && o.next.drift == Clamp(Acquired(s.drift, offsets[0], offset, locals[0], local), c.maxPpb)
  {
    Watching(c, s, offsets, locals);
    hide Window, Acquired;
  }

  // A window of n edges spaced by what `applied` makes of the nominal period,
  // against references spaced by `reference`.
  predicate Uniform(nominal: real, applied: real, reference: real, n: nat,
                    l0: nat, l1: nat, o0: real, o1: real) {
    && n > 0
    && l0 < l1
    && (l1 - l0) as real == n as real * EdgePeriod(nominal, applied)
    && o1 - o0 == (l1 - l0) as real - n as real * reference
  }

  // The estimate over a uniform window, exactly.
  lemma AcquiredRatio(drift: real, nominal: real, applied: real, reference: real, n: nat,
                      l0: nat, l1: nat, o0: real, o1: real)
    requires nominal > 0.0 && applied < NSEC_PER_SEC
    requires Uniform(nominal, applied, reference, n, l0, l1, o0, o1)
    ensures EdgePeriod(nominal, Acquired(drift, o0, o1, l0, l1)) * (NSEC_PER_SEC - applied)
      == reference * (NSEC_PER_SEC - drift)
  {
    var period := EdgePeriod(nominal, applied);
    var span := n as real * period;
    var d := Acquired(drift, o0, o1, l0, l1);
    Slope(drift, o1 - o0, span, n as real * reference, d);
    SpanCancels(n as real, period, reference, NSEC_PER_SEC - drift, NSEC_PER_SEC - d);
    EdgePeriodIs(nominal, applied);
    EdgePeriodIs(nominal, d);
    hide EdgePeriod, Acquired;
    CrossMultiply(nominal, NSEC_PER_SEC - applied, NSEC_PER_SEC - d, NSEC_PER_SEC - drift, reference,
                  period, EdgePeriod(nominal, d));
  }

  lemma EdgePeriodIs(nominal: real, ppb: real)
    ensures NSEC_PER_SEC * EdgePeriod(nominal, ppb) == nominal * (NSEC_PER_SEC - ppb)
  {
    var q := ppb / NSEC_PER_SEC;
    assert q * NSEC_PER_SEC == ppb;
  }

  lemma Slope(drift: real, rise: real, span: real, total: real, d: real)
    requires span > 0.0 && rise == span - total
    requires d == drift + (NSEC_PER_SEC - drift) * rise / span
    ensures (NSEC_PER_SEC - d) * span == (NSEC_PER_SEC - drift) * total
  {
    var g := NSEC_PER_SEC - drift;
    var q := g * rise / span;
    assert q * span == g * rise;
    assert NSEC_PER_SEC - d == g - q;
    assert (g - q) * span == g * span - g * rise;
  }

  lemma SpanCancels(n: real, period: real, reference: real, g: real, h: real)
    requires n > 0.0
    requires h * (n * period) == g * (n * reference)
    ensures h * period == g * reference
  {
    assert n * (h * period - g * reference) == 0.0;
  }

  lemma CrossMultiply(nominal: real, a: real, h: real, g: real, reference: real, period: real, next: real)
    requires nominal > 0.0
    requires NSEC_PER_SEC * period == nominal * a
    requires NSEC_PER_SEC * next == nominal * h
    requires h * period == g * reference
    ensures next * a == reference * g
  {
    assert NSEC_PER_SEC * (next * a) == h * (nominal * a);
    assert h * (nominal * a) == NSEC_PER_SEC * (h * period);
  }

  // One window is deadbeat exactly when the correction in force during it was
  // the stored drift estimate.
  lemma Deadbeat(c: Config, s: State, offsets: seq<real>, locals: seq<nat>, offset: real, local: nat,
                 nominal: real, applied: real, reference: real)
    requires nominal > 0.0 && reference > 0.0 && applied < NSEC_PER_SEC
    requires s.phase == Idle
    requires 0 < |offsets| == |locals|
    requires Short(c, locals)
    requires locals[0] < local && Window(locals[0], local) >= c.freqEstInterval
    requires Uniform(nominal, applied, reference, |locals|, locals[0], local, offsets[0], offset)
    requires Abs(Acquired(s.drift, offsets[0], offset, locals[0], local)) <= c.maxPpb
    ensures var o := Step(c, Run(c, s, Samples(offsets, locals)), offset, local);
      EdgePeriod(nominal, o.ppb) == reference <==> applied == s.drift
  {
    hide EdgePeriod, Acquired, Uniform, Window, Step, Run, Short, Samples;
    Acquires(c, s, offsets, locals, offset, local);
    AcquiredRatio(s.drift, nominal, applied, reference, |locals|, locals[0], local, offsets[0], offset);
    var next := EdgePeriod(nominal, Acquired(s.drift, offsets[0], offset, locals[0], local));
    EqualFactors(next, reference, NSEC_PER_SEC - applied, NSEC_PER_SEC - s.drift);
  }

  lemma EqualFactors(x: real, y: real, a: real, b: real)
    requires y > 0.0 && a > 0.0 && x * a == y * b
    ensures x == y <==> a == b
  {
    assert x == y ==> y * (a - b) == 0.0;
    assert a == b ==> (x - y) * a == 0.0;
  }
}
