/**
 The RP1 clock: the 24-bit fraction of a PLL feedback divider, trimmed around a
 fixed centre.  The authority is the 10000 ppm of the code, not the 100 ppm that
 the file's own header mentions.
 */
module Rp1Clock {
  import opened Reals
  import opened PwmClock

  const FRAC_MOD := 0x100_0000
  const TARGET_FBDIV_INT := 31
  const TARGET_FBDIV_FRAC := 0x75104D
  const AUTHORITY_PPM := 10_000.0

  // Feedback multiplier at the centre, in units of the last fraction bit.
  const CENTRE := TARGET_FBDIV_INT * FRAC_MOD + TARGET_FBDIV_FRAC

  function PpbPerLsb(fbdivInt: nat, fracCenter: nat): real
    requires fbdivInt > 0
  {
    1_000_000_000.0 / (FRAC_MOD as real * (fbdivInt as real + fracCenter as real / FRAC_MOD as real))
  }

  class Clock {
    const fracCenter: nat
    const ppbPerLsb: real
    const maxCodes: int
    var frac: int

    ghost predicate Valid() {
      && fracCenter == TARGET_FBDIV_FRAC
      && ppbPerLsb == 1_000_000_000.0 / CENTRE as real
      && maxCodes == 5_277_656
    }

    constructor ()
      ensures Valid()
      ensures frac == TARGET_FBDIV_FRAC
    {
      fracCenter := TARGET_FBDIV_FRAC;
      ppbPerLsb := PpbPerLsb(TARGET_FBDIV_INT, TARGET_FBDIV_FRAC);
      maxCodes := Round(AUTHORITY_PPM * 1000.0 / PpbPerLsb(TARGET_FBDIV_INT, TARGET_FBDIV_FRAC));
      frac := TARGET_FBDIV_FRAC;
      SteeringConstants();
    }

    method Adjust(ppb: real) returns (exhausted: bool)
      requires Valid()
      modifies this
      ensures !exhausted
      ensures frac == Trimmed(ppb)
    {
      var codes := Round(ppb / ppbPerLsb);
      if codes > maxCodes {
        codes := maxCodes;
      }
      if codes < -maxCodes {
        codes := -maxCodes;
      }
      var f := fracCenter + codes;
      exhausted := f < 0 || f >= FRAC_MOD;
      if exhausted {
        f := if f < 0 then 0 else FRAC_MOD - 1;
      }
      frac := f;
    }
  }

  lemma SteeringConstants()
    ensures PpbPerLsb(TARGET_FBDIV_INT, TARGET_FBDIV_FRAC) == 1_000_000_000.0 / CENTRE as real
    ensures Round(AUTHORITY_PPM * 1000.0 / PpbPerLsb(TARGET_FBDIV_INT, TARGET_FBDIV_FRAC)) == 5_277_656
  {
    assert FRAC_MOD as real * (31.0 + TARGET_FBDIV_FRAC as real / FRAC_MOD as real) == CENTRE as real;
    var lsb := 1_000_000_000.0 / CENTRE as real;
    assert lsb * CENTRE as real == 1_000_000_000.0;
    var ratio := AUTHORITY_PPM * 1000.0 / lsb;
    assert ratio == CENTRE as real / 100.0;
  }

  // The fraction a correction is turned into.
  function Trimmed(ppb: real): int {
    var codes := Round(ppb * CENTRE as real / 1_000_000_000.0);
    TARGET_FBDIV_FRAC + if codes > 5_277_656 then 5_277_656 else if codes < -5_277_656 then -5_277_656 else codes
  }

  // The correction a fraction stands for, in ppb away from the centre.
  function Realised(frac: int): real {
    (frac - TARGET_FBDIV_FRAC) as real * (1_000_000_000.0 / CENTRE as real)
  }

  const LSB := 1_000_000_000.0 / CENTRE as real

  // The range-exhausted branch is unreachable whatever the correction.
  lemma AlwaysInRange(ppb: real)
    ensures 0 <= Trimmed(ppb) < FRAC_MOD
  {
  }

  // Corrections up to 1% either way are not clamped, and the PLL realises them to
  // within half of the last bit.
  lemma RealisedWithinHalfLsb(ppb: real)
    requires Abs(ppb) <= 10_000_000.0
    ensures Abs(Realised(Trimmed(ppb)) - ppb) <= 0.5 * LSB
  {
    var scaled := ppb * CENTRE as real / 1_000_000_000.0;
    assert scaled == ppb * (CENTRE as real / 1_000_000_000.0);
    var codes := Round(scaled);
    assert Abs(codes as real - scaled) <= 0.5;
    assert Abs(scaled) <= 5_277_655.81;
    assert Trimmed(ppb) == TARGET_FBDIV_FRAC + codes;
    assert scaled * LSB == ppb;
    var y := Scaled(LSB, codes as real - scaled, 0.5);
    assert y == codes as real * LSB - scaled * LSB;
  }

  // Positive corrections raise the fraction and so speed the clock up: a larger
  // correction never gives a smaller fraction.
  lemma TrimIsMonotone(ppb: real, more: real)
    requires ppb <= more
    ensures Trimmed(ppb) <= Trimmed(more)
  {
    assert ppb * CENTRE as real <= more * CENTRE as real;
  }

  // From 1% on the correction is cut off, and what the PLL realises is 1% to within half
  // of the last bit.
  lemma SaturatesAtAuthority(ppb: real)
    requires Abs(ppb) >= 10_000_000.0
    ensures Abs(Realised(Trimmed(ppb)) - if ppb > 0.0 then 10_000_000.0 else -10_000_000.0) <= 0.5 * LSB
  {
    hide Realised;
    if ppb > 0.0 {
      RealisedWithinHalfLsb(10_000_000.0);
      TrimIsMonotone(10_000_000.0, ppb);
    } else {
      RealisedWithinHalfLsb(-10_000_000.0);
      TrimIsMonotone(ppb, -10_000_000.0);
    }
  }
}
