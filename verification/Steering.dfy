/**
 The default servo and the two clocks it can be connected to: no correction that
 it can ever emit is refused by the one or clamped by the other.
 */
module Steering {
  import opened Reals
  import opened PiServo
  import PwmClock
  import Rp1Clock

  lemma DefaultServoIsApplied(events: seq<Event>, offset: real, local: nat, nominal: real)
    requires nominal >= 0.0
    ensures var ppb := Step(DEFAULTS, Run(DEFAULTS, ZERO, events), offset, local).ppb;
      && PwmClock.Accepts(nominal, ppb)
      && 0 < Rp1Clock.Trimmed(ppb) < Rp1Clock.FRAC_MOD
      && Abs(Rp1Clock.Realised(Rp1Clock.Trimmed(ppb)) - ppb) <= 0.5 * Rp1Clock.LSB
  {
    EveryCorrectionWithin(DEFAULTS, events, offset, local);
    var ppb := Step(DEFAULTS, Run(DEFAULTS, ZERO, events), offset, local).ppb;
    hide Step, Run;
    PwmClock.ServoRangeAccepted(nominal, ppb);
    Rp1Clock.RealisedWithinHalfLsb(ppb);
  }
}
