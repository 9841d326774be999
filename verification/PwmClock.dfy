/**
 The BCM2711 PWM clock: a 12.12-bit fractional divider steered below its
 resolution by a first-order delta-sigma loop on the 12 fraction bits.

 Register words are modelled as numbers.  The password, the integer part and the
 fraction occupy disjoint bits, so the source's `|` is an addition;
 `WordFitsFields` proves that the integer part never leaves its 12 bits.
 */
module PwmClock {
  import opened Reals
  import opened Words

  const PLLD_FREQ_HZ := 750_000_000.0
  const PASSWORD := 0x5A00_0000
  const FRACTION := 4096
  const MAX_DIVF := 4095
  const MAX_DIVI := 4095

  // Pulse-width range chosen by the requested output frequency.
  function Range(freqHz: nat): nat {
    if freqHz >= 3000 then 512
    else if freqHz >= 750 then 2048
    else if freqHz >= 200 then 8192
    else 16384
  }

  function Divider(freqHz: nat): real
    requires freqHz > 0
  {
    PLLD_FREQ_HZ / (freqHz * Range(freqHz)) as real
  }

  // C's lround: to nearest, halves away from zero.
  function Round(x: real): int {
    if x >= 0.0 then (x + 0.5).Floor else -((-x + 0.5).Floor)
  }

  // The steering state of a clock whose divider is written at every adjustment.
  datatype State = State(nominal: real, err: real, lastDivf: nat)

  function Requested(nominal: real, ppb: real): real {
    nominal * (1.0 - ppb / 1_000_000_000.0)
  }

  predicate Accepts(nominal: real, ppb: real) {
    nominal * 0.99 <= Requested(nominal, ppb) <= nominal * 1.01
  }

  // The fraction of a divider, in units of the last bit.
  function Fraction(divider: real): real {
    (divider - divider.Floor as real) * FRACTION as real
  }

  // What is written for the fraction: rounded, cast to unsigned and cut off.
  function Quantised(q: real): nat {
    var divf := Round(q) % U32;
    if divf > MAX_DIVF then MAX_DIVF else divf
  }

  function Adjusted(s: State, ppb: real): State {
    if !Accepts(s.nominal, ppb) then s
    else
      var q := Fraction(Requested(s.nominal, ppb)) + s.err;
      var divf := Quantised(q);
      s.(err := q - divf as real, lastDivf := divf)
  }

  // The 24-bit code written, integer part and fraction together, in units of
  // the last fraction bit.
  function Code(s: State, ppb: real): int {
    FRACTION * Requested(s.nominal, ppb).Floor
    + Quantised(Fraction(Requested(s.nominal, ppb)) + s.err)
  }

  class Clock {
    var nominalDivider: real
    var divfErr: real
    var lastDivf: nat
    var pcmEnabled: bool
    var pwmDiv: nat
    var pcmDiv: nat

    function View(): State
      reads this
    {
      State(nominalDivider, divfErr, lastDivf)
    }

    // The divider part of preparing the clock.
    method Prepare(freqHz: nat) returns (ok: bool)
      requires freqHz > 0
      modifies this
      ensures ok <==> Divider(freqHz).Floor <= MAX_DIVI
      ensures ok ==>
        && View() == old(View()).(nominal := Divider(freqHz))
        && pwmDiv == Word(Divider(freqHz).Floor, Fraction(Divider(freqHz)).Floor)
      ensures !ok ==> View() == old(View()) && pwmDiv == old(pwmDiv)
      ensures pcmDiv == old(pcmDiv) && pcmEnabled == old(pcmEnabled)
    {
      var target := freqHz * Range(freqHz);
      var divider := PLLD_FREQ_HZ / target as real;
      var divi := divider.Floor;
      var divf := ((divider - divi as real) * FRACTION as real).Floor;
      if divi > MAX_DIVI {
        return false;
      }
      nominalDivider := divider;
      pwmDiv := Word(divi, divf);
      return true;
    }

    method AdjustFreq(ppb: real) returns (ok: bool)
      modifies this
      ensures ok <==> Accepts(old(nominalDivider), ppb)
      ensures View() == Adjusted(old(View()), ppb)
      ensures pwmDiv == if ok then PASSWORD + Code(old(View()), ppb) else old(pwmDiv)
      ensures pcmDiv == if ok && pcmEnabled then PASSWORD + Code(old(View()), ppb) else old(pcmDiv)
      ensures pcmEnabled == old(pcmEnabled)
    {
      var newDivider := Requested(nominalDivider, ppb);
      if newDivider < nominalDivider * 0.99 || newDivider > nominalDivider * 1.01 {
        return false;
      }
      var divi := newDivider.Floor;
      var frac := (newDivider - divi as real) * FRACTION as real;
      var q := frac + divfErr;
      var divf := Round(q) % U32;
      if divf > MAX_DIVF {
        divf := MAX_DIVF;
      }
      divfErr := q - divf as real;
      lastDivf := divf;
      var word := Word(divi, divf);
      pwmDiv := word;
      if pcmEnabled {
        pcmDiv := word;
      }
      return true;
    }
  }

  function Word(divi: nat, divf: nat): nat {
    PASSWORD + divi * FRACTION + divf
  }

  // ---- Runs of adjustments --------------------------------------------------

  function After(s: State, ppbs: seq<real>): State
    decreases |ppbs|
  {
    if ppbs == [] then s
    else Adjusted(After(s, ppbs[..|ppbs| - 1]), ppbs[|ppbs| - 1])
  }

  // What was asked for and what was written, in units of the last bit, summed
  // over the adjustments that were accepted.
  function RequestedSum(s: State, ppbs: seq<real>): real
    decreases |ppbs|
  {
    if ppbs == [] then 0.0
    else
      var ppb := ppbs[|ppbs| - 1];
      RequestedSum(s, ppbs[..|ppbs| - 1])
      + if Accepts(s.nominal, ppb) then Requested(s.nominal, ppb) * FRACTION as real else 0.0
  }

  function WrittenSum(s: State, ppbs: seq<real>): int
    decreases |ppbs|
  {
    if ppbs == [] then 0
    else
      var before := ppbs[..|ppbs| - 1];
      var ppb := ppbs[|ppbs| - 1];
      WrittenSum(s, before)
      + if Accepts(s.nominal, ppb) then Code(After(s, before), ppb) else 0
  }

  // Nothing is lost to quantisation: over any run, rejections, cut-offs and
  // changes of the integer part included, the codes written sum to the dividers
  // requested plus the error carried in minus the error carried out.
  lemma {:induction false} ErrorIsCarried(s: State, ppbs: seq<real>)
    ensures After(s, ppbs).nominal == s.nominal
    ensures WrittenSum(s, ppbs) as real
      == RequestedSum(s, ppbs) + s.err - After(s, ppbs).err
    decreases |ppbs|
  {
    if ppbs != [] {
      var before, ppb := ppbs[..|ppbs| - 1], ppbs[|ppbs| - 1];
      ErrorIsCarried(s, before);
      hide Accepts, Requested, Quantised;
      if Accepts(s.nominal, ppb) {
        CodeError(After(s, before), ppb);
      }
    }
  }

  lemma CodeError(s: State, ppb: real)
    requires Accepts(s.nominal, ppb)
    ensures Code(s, ppb) as real
      == Requested(s.nominal, ppb) * FRACTION as real + s.err - Adjusted(s, ppb).err
  {
    var d := Requested(s.nominal, ppb);
    var f := d.Floor;
    hide Requested, Quantised, Accepts;
    assert Fraction(d) == d * FRACTION as real - (FRACTION * f) as real;
  }

  // Half a bit: the carried error a single rounding leaves.
  predicate HalfBit(err: real) {
    Abs(err) <= 0.5
  }

  // Carrying half a bit or less in, an adjustment carries half a bit or less out
  // exactly when fraction plus carried error is above -1/2 and at most 4095 1/2.
  lemma HalfBitIff(s: State, ppb: real)
    requires HalfBit(s.err) && Accepts(s.nominal, ppb)
    ensures var q := Fraction(Requested(s.nominal, ppb)) + s.err;
      HalfBit(Adjusted(s, ppb).err) <==> -0.5 < q <= 4095.5
  {
    var d := Requested(s.nominal, ppb);
    var f := Fraction(d);
    assert 0.0 <= f < 4096.0;
    hide Requested, Fraction, Accepts;
    QuantisedIs(f + s.err);
  }

  // Rounding below zero wraps through the cast to the largest fraction.
  lemma QuantisedIs(q: real)
    requires -0.5 <= q < 4096.5
    ensures q > -0.5 ==> Quantised(q) == if Round(q) > MAX_DIVF then MAX_DIVF else Round(q)
    ensures q == -0.5 ==> Quantised(q) == MAX_DIVF
    ensures q > -0.5 ==> -0.5 <= q - Round(q) as real <= 0.5
  {
    if q == -0.5 {
      assert Round(q) == -1;
    } else if q < 0.0 {
      assert Round(q) == 0;
    } else {
      assert 0 <= Round(q) <= 4096;
    }
  }

  predicate SafeFraction(f: real) {
    0.0 < f <= MAX_DIVF as real
  }

  // What a caller can check: a requested fraction keeps every carried error of half a bit
  // or less at half a bit or less if and only if it is in (0, 4095].
  lemma SafeFractionIff(nominal: real, ppb: real)
    requires Accepts(nominal, ppb)
    ensures (forall err: real, last: nat :: HalfBit(err) ==> HalfBit(Adjusted(State(nominal, err, last), ppb).err))
      <==> SafeFraction(Fraction(Requested(nominal, ppb)))
  {
    var f := Fraction(Requested(nominal, ppb));
    assert 0.0 <= f < 4096.0;
    hide Requested, Fraction, Accepts, Adjusted;
    HalfBitIff(State(nominal, -0.5, 0), ppb);
    HalfBitIff(State(nominal, 0.5, 0), ppb);
    forall err: real, last: nat | HalfBit(err) && SafeFraction(f)
      ensures HalfBit(Adjusted(State(nominal, err, last), ppb).err)
    {
      HalfBitIff(State(nominal, err, last), ppb);
    }
  }

  predicate SafeRun(nominal: real, ppbs: seq<real>) {
    forall i :: 0 <= i < |ppbs| && Accepts(nominal, ppbs[i])
      ==> SafeFraction(Fraction(Requested(nominal, ppbs[i])))
  }

  // With every requested fraction in (0, 4095] the carried error never exceeds
  // half a bit, so the mean error of a run shrinks as one over its length.
  lemma {:induction false} SafeRunError(s: State, ppbs: seq<real>)
    requires HalfBit(s.err) && SafeRun(s.nominal, ppbs)
    ensures HalfBit(After(s, ppbs).err)
    ensures Abs(WrittenSum(s, ppbs) as real - RequestedSum(s, ppbs)) <= 1.0
    decreases |ppbs|
  {
    hide Requested, Fraction, Accepts, Quantised;
    ErrorIsCarried(s, ppbs);
    if ppbs != [] {
      var before, ppb := ppbs[..|ppbs| - 1], ppbs[|ppbs| - 1];
      assert SafeRun(s.nominal, before) by {
        forall i | 0 <= i < |before| && Accepts(s.nominal, before[i])
          ensures SafeFraction(Fraction(Requested(s.nominal, before[i])))
        {
          assert before[i] == ppbs[i];
        }
      }
      SafeRunError(s, before);
      ErrorIsCarried(s, before);
      if Accepts(s.nominal, ppb) {
        assert SafeFraction(Fraction(Requested(s.nominal, ppbs[|ppbs| - 1])));
        HalfBitIff(After(s, before), ppb);
      }
    }
  }

  // Both ends of the interval matter, at frequencies and corrections in use.  At 300 Hz
  // one adjustment leaves half a bit of error below an integer divider, and the next,
  // onto that integer, is written as the largest fraction, almost a whole unit off.
  lemma ZeroFractionFails()
    ensures var s := State(Divider(300), 0.0, 0);
      && Accepts(s.nominal, 575_600.0) && Fraction(Requested(s.nominal, 575_600.0)) == 0.5
      && Accepts(s.nominal, 576_000.0) && Fraction(Requested(s.nominal, 576_000.0)) == 0.0
      && After(s, [575_600.0]) == s.(err := -0.5, lastDivf := 1)
      && After(s, [575_600.0, 576_000.0]) == s.(err := -4095.5, lastDivf := 4095)
  {
    var s := State(Divider(300), 0.0, 0);
    assert Requested(s.nominal, 575_600.0) == 305.0001220703125;
    assert Requested(s.nominal, 576_000.0) == 305.0;
    assert Fraction(305.0001220703125) == 0.5 && Fraction(305.0) == 0.0;
    assert Quantised(0.5) == 1;
    QuantisedIs(-0.5);
    hide Requested, Fraction, Quantised;
    assert [575_600.0, 576_000.0][..1] == [575_600.0] && [575_600.0][..0] == [];
    assert After(s, []) == s;
    assert After(s, [575_600.0]) == Adjusted(s, 575_600.0);
    assert After(s, [575_600.0, 576_000.0]) == Adjusted(After(s, [575_600.0]), 576_000.0);
  }

  // Above 4095 the cut-off binds, and at every adjustment the error grows by at least as
  // much as the fraction is too large: without bound, whatever it was before.
  lemma {:induction false} WindsUp(s: State, ppb: real, n: nat)
    requires Accepts(s.nominal, ppb)
    requires Fraction(Requested(s.nominal, ppb)) > MAX_DIVF as real
    ensures After(s, seq(n, _ => ppb)).err
      >= s.err + Growth(n, Fraction(Requested(s.nominal, ppb)) - MAX_DIVF as real)
  {
    var run := seq(n, _ => ppb);
    GrowthStep(n, Fraction(Requested(s.nominal, ppb)) - MAX_DIVF as real);
    hide Requested, Accepts, Growth, Quantised, Fraction;
    if n > 0 {
      var before := seq(n - 1, _ => ppb);
      assert run[..n - 1] == before;
      WindsUp(s, ppb, n - 1);
      ErrorIsCarried(s, before);
      AtMostCutOff(Fraction(Requested(s.nominal, ppb)) + After(s, before).err);
    }
  }

  lemma AtMostCutOff(q: real)
    ensures Quantised(q) <= MAX_DIVF
  {
  }

  // By exactly as much, as long as the error stays in the range of the cast.
  lemma {:induction false} WindsUpExactly(s: State, ppb: real, n: nat)
    requires Accepts(s.nominal, ppb) && s.err >= 0.0
    requires Fraction(Requested(s.nominal, ppb)) > MAX_DIVF as real
    requires s.err + n as real < 4_000_000_000.0
    ensures After(s, seq(n, _ => ppb)).err
      == s.err + Growth(n, Fraction(Requested(s.nominal, ppb)) - MAX_DIVF as real)
  {
    var run := seq(n, _ => ppb);
    FractionBelow(Requested(s.nominal, ppb));
    hide Requested, Accepts, Growth, Quantised, Fraction;
    GrowthStep(n, Fraction(Requested(s.nominal, ppb)) - MAX_DIVF as real);
    if n > 0 {
      var before := seq(n - 1, _ => ppb);
      assert run[..n - 1] == before;
      WindsUpExactly(s, ppb, n - 1);
      ErrorIsCarried(s, before);
      GrowthStep(n - 1, Fraction(Requested(s.nominal, ppb)) - MAX_DIVF as real);
      CutOff(Fraction(Requested(s.nominal, ppb)) + After(s, before).err);
    }
  }

  lemma FractionBelow(divider: real)
    ensures 0.0 <= Fraction(divider) < 4096.0
  {
  }

  // A correction that does it: 576400 ppb at 300 Hz, half a bit too large, so that n
  // adjustments leave n halves of a bit.
  lemma WindsUpInUse(n: nat)
    ensures var s := State(Divider(300), 0.0, 0);
      && Accepts(s.nominal, 576_400.0)
      && Fraction(Requested(s.nominal, 576_400.0)) == 4095.5
      && After(s, seq(n, _ => 576_400.0)).err >= 0.5 * n as real
  {
    var s := State(Divider(300), 0.0, 0);
    assert Requested(s.nominal, 576_400.0) == 304.9998779296875;
    assert Fraction(304.9998779296875) == 4095.5;
    assert Growth(n, 0.5) == 0.5 * n as real;
    hide Requested, Fraction, Growth;
    WindsUp(s, 576_400.0, n);
  }

  function Growth(n: nat, excess: real): real {
    n as real * excess
  }

  lemma GrowthStep(n: nat, excess: real)
    requires 0.0 <= excess <= 1.0
    ensures 0.0 <= Growth(n, excess) <= n as real
    ensures Growth(0, excess) == 0.0
    ensures n > 0 ==> Growth(n, excess) == Growth(n - 1, excess) + excess
  {
    if n > 0 {
      assert n as real == (n - 1) as real + 1.0;
    }
  }

  lemma CutOff(q: real)
    requires MAX_DIVF as real <= q < 4_000_005_000.0
    ensures Quantised(q) == MAX_DIVF
  {
    assert MAX_DIVF <= Round(q) < U32;
  }

  // ---- The frequencies and corrections in use -------------------------------

  lemma Quotient(a: real, b: real, least: real)
    requires a > 0.0 && b >= least > 0.0
    ensures 0.0 < a / b <= a / least
  {
    var q := a / b;
    assert q * b == a;
    var r := a / least;
    assert r * least == a;
    if q > r {
      Monotone(q, least, b);
      var d := Product(least, q - r);
      assert false;
    }
  }

  lemma DividerRange(freqHz: nat)
    requires freqHz > 0
    ensures freqHz <= 11 <==> Divider(freqHz).Floor > MAX_DIVI
    ensures freqHz >= 12 ==> 0.0 < Divider(freqHz) < 3900.0
  {
    var target := (freqHz * Range(freqHz)) as real;
    if freqHz <= 11 {
      assert 0.0 < target <= 180224.0;
      Quotient(PLLD_FREQ_HZ, 180224.0, target);
      assert PLLD_FREQ_HZ / 180224.0 > 4096.0;
    } else {
      assert target >= 196608.0;
      Quotient(PLLD_FREQ_HZ, target, 196608.0);
    }
  }

  // Every frequency that can be prepared leaves room for the widest accepted
  // adjustment: the integer part stays within its 12 bits.
  lemma WordFitsFields(freqHz: nat, ppb: real)
    requires freqHz > 0 && Divider(freqHz).Floor <= MAX_DIVI
    requires Accepts(Divider(freqHz), ppb)
    ensures 0 <= Requested(Divider(freqHz), ppb).Floor <= MAX_DIVI
  {
    DividerRange(freqHz);
    hide Divider, Requested;
  }

  // The fields of a register word: password, integer part and fraction do not overlap.
  lemma WordFields(divi: nat, divf: nat)
    requires divi <= MAX_DIVI && divf <= MAX_DIVF
    ensures Word(divi, divf) / 0x100_0000 == 0x5A
    ensures Word(divi, divf) / 0x1000 % 0x1000 == divi
    ensures Word(divi, divf) % 0x1000 == divf
  {
  }

  // What an accepted adjustment writes, read back from the register: the integer part of
  // the divider asked for and the fraction remembered.
  lemma WrittenFields(freqHz: nat, s: State, ppb: real)
    requires freqHz > 0 && Divider(freqHz).Floor <= MAX_DIVI
    requires s.nominal == Divider(freqHz) && Accepts(s.nominal, ppb)
    ensures var word := PASSWORD + Code(s, ppb);
      && word / 0x100_0000 == 0x5A
      && word / 0x1000 % 0x1000 == Requested(s.nominal, ppb).Floor
      && word % 0x1000 == Adjusted(s, ppb).lastDivf
  {
    WordFitsFields(freqHz, ppb);
    hide Divider, Requested, Accepts, Fraction;
    AtMostCutOff(Fraction(Requested(s.nominal, ppb)) + s.err);
    hide Quantised;
    WordFields(Requested(s.nominal, ppb).Floor, Adjusted(s, ppb).lastDivf);
  }

  // The pulse-width range keeps the divider between 122 and 489 for every output frequency
  // from 94 Hz to 12 kHz.
  lemma DividerBand(freqHz: nat)
    requires 94 <= freqHz <= 12_000
    ensures 122.07 <= Divider(freqHz) <= 488.29
  {
    var target := (freqHz * Range(freqHz)) as real;
    assert 1_536_000.0 <= target <= 6_144_000.0;
    Quotient(PLLD_FREQ_HZ, target, 1_536_000.0);
    Quotient(PLLD_FREQ_HZ, 6_144_000.0, target);
    assert PLLD_FREQ_HZ / 1_536_000.0 == 488.28125;
    assert PLLD_FREQ_HZ / 6_144_000.0 >= 122.07;
  }

  // The divider on both sides of the three changes of range.
  lemma DividerSteps()
    ensures Divider(3000) == 488.28125 && Divider(2999) == PLLD_FREQ_HZ / 6_141_952.0
    ensures Divider(750) == 488.28125 && Divider(749) == PLLD_FREQ_HZ / 6_135_808.0
    ensures Divider(200) == 457.763671875 && Divider(199) == PLLD_FREQ_HZ / 3_260_416.0
  {
    assert 3000 * Range(3000) == 1_536_000 && 2999 * Range(2999) == 6_141_952;
    assert 750 * Range(750) == 1_536_000 && 749 * Range(749) == 6_135_808;
    assert 200 * Range(200) == 1_638_400 && 199 * Range(199) == 3_260_416;
  }

  // An adjustment is refused exactly beyond one percent.
  lemma AcceptsIff(nominal: real, ppb: real)
    requires nominal > 0.0
    ensures Accepts(nominal, ppb) <==> Abs(ppb) <= 10_000_000.0
  {
    var r := ppb / 1_000_000_000.0;
    assert Requested(nominal, ppb) == nominal - nominal * r;
    if Abs(r) <= 0.01 {
      var y := Scaled(nominal, r, 0.01);
    } else {
      var y := Product(nominal, Abs(r) - 0.01);
      assert y == nominal * Abs(r) - nominal * 0.01;
    }
  }

  // Corrections inside the servo's clamp are never rejected.
  lemma ServoRangeAccepted(nominal: real, ppb: real)
    requires nominal >= 0.0 && Abs(ppb) <= 2_000_000.0
    ensures Accepts(nominal, ppb)
  {
    var r := ppb / 1_000_000_000.0;
    assert -0.01 <= r <= 0.01;
    var y := Scaled(nominal, r, 0.01);
    assert Requested(nominal, ppb) == nominal - y;
  }

  // At 300 Hz the nominal divider is 305 720/4096, and corrections up to 575 ppm
  // keep the fraction where the error stays within half a bit.
  lemma DefaultFractionSafe(ppb: real)
    requires Abs(ppb) <= 575_000.0
    ensures Divider(300) == 305.17578125
    ensures SafeFraction(Fraction(Requested(Divider(300), ppb)))
  {
    assert Divider(300) == 750_000_000.0 / 2_457_600.0;
    var d := Requested(305.17578125, ppb);
    assert d == 305.17578125 - 305.17578125 * ppb / 1_000_000_000.0;
    assert 305.0 < d < 305.36;
    assert d.Floor == 305;
  }
}
