# Media clock recovery, verified

A Dafny model of the parts of this AVTP library (IEEE 1722-2016) and its demos that
hold state over long runs or do real arithmetic, with proofs of what they promise.
Run `dafny verify dfyconfig.toml` to check it.

The pieces, bottom up:

- **Clock steering.** `PiServo` is the servo object; `ServoLoop`, `SlewRegime`,
  `DefaultLoop`, `WideLock`, `StaleLock` and `Acquisition` close the loop around the
  clock it steers: stability of the PI branch, escape from and parking in the slewing
  regime, lock and convergence of the default tuning from every drift estimate the
  slewing branch can work with, and deadbeat acquisition. `Measured` and `MeasuredLock`
  do it again on integer samples that err, for every edge period near the default, and
  `ColdStart` goes all the way from a new servo to lock.
  `PwmClock` (the delta-sigma divider), `Rp1Clock` (the PLL fraction) and `Steering` are
  the clocks the corrections go to.
- **AF_XDP rings.** `XskRings` is a state machine that interleaves the kernel with
  the single memory operations of a release, once with 32-bit counters and once with
  unbounded ones; `XskSocket` is the object whose methods are runs of it, with the
  kernel taking steps in between.
- **Media clock queue.** `MediaClock` is the CRF listener's queue with freewheeling,
  late discard and the search loop; `MediaClockRuns` is about whole runs against the
  packets of `CrfTalker`.
- **NAL splitter.** `NalStream` says what the NAL units of a byte stream are,
  `NalTalker` cuts them out of a sliding buffer, `NalListener` puts them back.
- **CRF receive path.** `CrfReceiver` counts packets and losses, `EdgeListener` pairs
  captured edges with timestamps, `EdgePairing` follows both over runs with losses,
  `EdgeRecovery` over losses of any length, `EdgeHistory` is what the clock was given,
  `CrfPipeline` joins parser, counter and listener to packets on the wire, and
  `ClosedLoop` joins the listener to the clock that its edges come from.
- **Packets.** `BitField` is the mask-and-shift codec, `Header` is a row of words with
  fields, `CrfProfile` and `AafProfile` are the two formats with their encoders and
  their strict and lenient parsers over `ProfileCheck`. `PresentationTime` is the
  32-bit presentation time and its reconstruction.

`Reals`, `Words` and `Times` hold shared arithmetic. An object of the source is a
class whose methods are proved against a specification function on values; what the
source promises over runs is proved about that function.

## What the proofs found

Where the code differs from what its comments say, the model follows the code.

- Resetting the servo keeps the drift estimate (`PiServo.ResetKeepsEstimate`), and a servo that is acquiring returns
  its last correction; the header of `pi-servo.h` speaks of discarding all state
  (131-134) and of returning zero (15-16). One acquisition window is therefore exact
  only when the correction in force is the stored drift (`Acquisition.Deadbeat`, if
  and only if).
- The slewing regime is left only when the drift estimate is *strictly* within
  `slew_kp * slew_thresh_ns` on the phase error's side; the header (43) allows equality,
  where the approach is only asymptotic unless one edge removes the whole phase error
  (`SlewRegime.EscapesIff`). Past the bound the loop parks, reporting LOCKED
  (`SlewRegime.ParkedForever`). An estimate far enough off on the other side throws the
  loop over the window, where it parks too (`SlewRegime.JumpsOver`).
- With the default tuning the bound is enough for lock from outside the window
  (`WideLock.DefaultLockIff`). Inside the window it is not: the sample counter survives a
  reset, and a loop that runs out of fast samples halfway across can leave the window
  past the bound and park (`StaleLock.StaleSamplesPark`); a servo that is reset and
  acquired again gets there (`StaleLock.HistoryParks`).
- The delta-sigma divider casts a negative rounding to unsigned and so writes 4095; two
  corrections in use at 300 Hz are enough for that (`PwmClock.ZeroFractionFails`). Its
  carried error grows without bound for a fraction above 4095 (`PwmClock.WindsUp`), again
  with a correction in use (`PwmClock.WindsUpInUse`). The half-bit bound holds exactly for
  fractions above 0 and at most 4095 (`PwmClock.SafeFractionIff`).
- The RP1 clock's authority is 10000 ppm, not the 100 ppm of its comments, and its
  range-exhausted branch is unreachable for every correction.
- The search for an audio timestamp loops for ever exactly when no queued timestamp
  matches and the target differs from the last known clock value modulo 8
  (`MediaClock.SearchEndsIff`).
- The drop count and the edge drain are exact if and only if no burst of losses
  reaches 256 packets (`CrfReceiver.Counts`, `EdgePairing.DrainIff`). The pairing comes
  back by itself even so, after one miss and one search (`EdgeRecovery.AlwaysRecovers`).
- The second look at the clock makes the presentation time exact if and only if it is
  less than 2^31 ns past and at most 2^31 ns ahead (`PresentationTime.CorrectedIff`); a
  packet exactly 2^31 ns late is presented 2^32 ns too late.
- The encoders truncate what is too wide, and a lenient listener lets some of it through:
  exactly a wide CRF pull code and a wide AAF sparse code (`CrfProfile.LenientTakes`,
  `AafProfile.LenientTakes`). The AAF parser never looks at the sv bit.
- The NAL talker keeps what comes before the first start code in its buffer, and takes a
  full buffer for the end of the input. It does what it should if and only if the input
  has no NAL unit, or fits the buffer, or the first unit with what comes before it and the
  next start code does, or the part of that unit that fits is already too long
  (`NalTalker.Separable`, `NalTalker.Run`). Up to 1453 leading bytes never do harm.

## Assumptions of the model

- `double` is `real`: rounding of floating-point operations is not modelled. `lround`
  rounds halves away from zero.
- Between two edges the phase error moves by the edge period times the remaining
  frequency error, and the clock realises a correction exactly. In `ServoLoop` to
  `WideLock` the servo is given the phase error itself, a real number, at 300 edges a
  second; from `Measured` on it is given integers that err.
- The kernel takes each published fill entry once, pushes a frame it holds to the
  receive ring only when there is room, and may change its address within the chunk.
  Memory operations are seen in program order, which the source's barriers provide.
  Ring size and number of frames are equal and a power of two, as the kernel demands.
- Captured edges are a queue already filled; an edge read that would time out finds
  it empty. A packet arrives after the edges of its timestamps have been captured. In
  `ClosedLoop` each edge follows the correction that the sample before it gave, as it does
  when the reads wait for the edges.
- Packets may be lost but are neither duplicated nor reordered. A listener that is also
  a talker has not freewheeled past the first timestamp before its first CRF packet, and
  64-bit nanoseconds do not overflow.
- Allocations, sends and reads succeed; the first read of the NAL talker delivers at
  least two bytes. 64-bit statistics do not wrap.
- Header words are taken in host order.

## Model

| member | source | states |
|---|---|---|
| `PiServo.Servo.constructor` | examples/hw-demos/rpi/common/pi-servo.c:57-71 | A new servo is idle with every field zero, for any configuration that creation accepts |
| `PiServo.Servo.Sample` | examples/hw-demos/rpi/common/pi-servo.c:78-180 | One sample updates every field, and returns the correction and the lock report, exactly as one step of the servo's transition function |
| `PiServo.Servo.SampleAcquiring` | examples/hw-demos/rpi/common/pi-servo.c:100-133 | The acquisition case: restart on a clock that did not advance, wait for the window, then seed the drift from the slope, clamped |
| `PiServo.Servo.SampleTracking` | examples/hw-demos/rpi/common/pi-servo.c:135-175 | The tracking case: step check, slewing or PI correction, clamp, integration only when unclamped and small |
| `PiServo.Servo.ResetServo` | examples/hw-demos/rpi/common/pi-servo.c:182-186 | A reset only returns to idle: the drift estimate survives it |
| `PiServo.PiKeepsDrift` | examples/hw-demos/rpi/common/pi-servo.c:164-172 | Integration that follows an unclamped PI correction cannot push the drift outside the clamp |
| `PiServo.StepWithin` | examples/hw-demos/rpi/common/pi-servo.c:91-179 | From a state inside the clamp, any sample leaves drift and correction inside it, and LOCKED is reported exactly when the servo ends the call tracking |
| `PiServo.RunWithin` | examples/hw-demos/rpi/common/pi-servo.c:78-186 | Drift and last correction are inside the clamp after every sequence of samples and resets since creation |
| `PiServo.EveryCorrectionWithin` | examples/hw-demos/rpi/common/pi-servo.c:78-186 | Every correction ever returned is inside the clamp and is reported LOCKED exactly when the servo is left tracking |
| `PiServo.LockIsPermanent` | examples/hw-demos/rpi/common/pi-servo.c:135-143 | A tracking servo fed only samples within a tolerance that does not exceed the step threshold never leaves tracking |
| `PiServo.StepDropsLock` | examples/hw-demos/rpi/common/pi-servo.c:135-143 | One sample beyond a non-zero step threshold, by default 100 ms, and only that, drops the lock; the drift estimate is untouched |
| `PiServo.UnlockedHolds` | examples/hw-demos/rpi/common/pi-servo.c:91-143 | Whenever the servo is not locked it answers with the correction in force, and keeps it and the drift estimate |
| `PiServo.AcquiresIff` | examples/hw-demos/rpi/common/pi-servo.c:106-118 | An acquisition starts over exactly when the clock has not advanced since its first sample, and completes exactly when it has advanced by the interval asked for less one part in 1001 |
| `PiServo.NoWindup` | examples/hw-demos/rpi/common/pi-servo.c:145-172 | However many samples the servo cannot answer in full, slewing or clamped in either gain, the drift estimate is the one from before them |
| `PiServo.UnsaturatedStep` | examples/hw-demos/rpi/common/pi-servo.c:154-172 | Any other tracked sample is answered in full and moves the estimate by the gain in force times the phase error |
| `PiServo.ResetKeepsEstimate` | examples/hw-demos/rpi/common/pi-servo.c:182-186 | After a reset, an acquisition over a phase error that does not move comes back to the drift estimate from before the reset |
| `ServoLoop.PiTick` | examples/hw-demos/rpi/common/pi-servo.c:154-172 | In closed loop with the clock, an unclamped PI edge is a linear map of phase error and drift-estimate error |
| `ServoLoop.EnergyIdentity` | examples/hw-demos/rpi/common/pi-servo.c:154-172 | The quadratic energy of the loop changes per edge by exactly minus k T ((kp (2 - T kp) - k) x^2 + T e^2) |
| `ServoLoop.EnergyDecreases` | examples/hw-demos/rpi/common/pi-servo.c:154-172 | For stable gains the energy never rises, and strictly falls off the equilibrium |
| `ServoLoop.EnergyBounds` | examples/hw-demos/rpi/common/pi-servo.c:154-172 | The energy bounds phase error and drift-estimate error separately |
| `ServoLoop.InsideEllipse` | examples/hw-demos/rpi/common/pi-servo.c:145-172 | Inside a small enough ellipse the next sample is taken by the PI branch, unclamped |
| `ServoLoop.PiStays` | examples/hw-demos/rpi/common/pi-servo.c:145-172 | One edge inside the ellipse stays inside it and lowers the energy |
| `ServoLoop.PiForever` | examples/hw-demos/rpi/common/pi-servo.c:145-172 | For as many edges as the integral gain stays fixed, a loop started in the ellipse stays in the PI branch and its energy falls at every edge off the equilibrium |
| `SlewRegime.SlewTick` | examples/hw-demos/rpi/common/pi-servo.c:145-153 | A slewing edge moves the phase error, holds the integrator, restarts the sample count and reports LOCKED |
| `SlewRegime.EscapeStep` | examples/hw-demos/rpi/common/pi-servo.c:145-153 | For an estimate the branch can work with, one slewing edge moves the phase error towards zero and never past the opposite threshold; it falls by a fixed amount or lands in the PI window; the estimate is held and the fast samples start over |
| `SlewRegime.Escapes` | examples/hw-demos/rpi/common/pi-servo.c:145-153 | Such a loop reaches the PI window within an explicit number of edges; on the way it falls at every edge, stays on its starting side, and no edge passes the opposite threshold |
| `SlewRegime.WithinAuthority` | examples/hw-demos/rpi/common/pi-servo.h:36-50 | Every estimate strictly within slew_kp * slew_thresh_ns of the true drift, on either side, is one the branch can work with |
| `SlewRegime.ParkedStep` | examples/hw-demos/rpi/common/pi-servo.c:145-175 | A loop with the estimate that far out or further stays outside the window on the same side, reports LOCKED, and does not refine its estimate |
| `SlewRegime.ParkedForever` | examples/hw-demos/rpi/common/pi-servo.h:36-50 | The parked loop stays parked for ever while reporting LOCKED |
| `SlewRegime.EscapesIff` | examples/hw-demos/rpi/common/pi-servo.h:36-50 | A slewing loop that no edge throws past the opposite threshold ever reaches the PI window if and only if the estimate is less than slew_kp * slew_thresh_ns short on its side, or short by exactly that with a gain that removes the whole phase error in one edge; on the other side the estimate may be further off |
| `SlewRegime.JumpsOver` | examples/hw-demos/rpi/common/pi-servo.c:145-153 | Where the estimate is so far off that an edge can be thrown past the opposite threshold, there is a phase error on the same side from which one edge jumps over the window and the loop parks |
| `SlewRegime.Edges` | examples/hw-demos/rpi/common/pi-servo.c:145-153 | The number of edges that covers a given phase error at a given fall per edge |
| `DefaultLoop.FormShrinks` | examples/hw-demos/rpi/common/pi-servo.c:154-172 | Any quadratic form of phase error and drift-estimate error shrinks by a given factor at every PI edge, for every gain and edge period that meet an explicit condition |
| `DefaultLoop.Contracts` | examples/hw-demos/rpi/common/pi-servo.c:12-20 | One quadratic energy contracts at every edge under both default integral gains at 300 Hz |
| `DefaultLoop.SettlesForever` | examples/hw-demos/rpi/common/pi-servo.c:154-172 | With the default tuning, once in the ellipse the PI branch takes every later sample and the energy shrinks geometrically, across the gain switch and the wrap of the 32-bit sample counter |
| `DefaultLoop.ThroughBand` | examples/hw-demos/rpi/common/pi-servo.c:145-172 | From the edge of the PI window with a good seed the default loop enters the ellipse within 72 edges |
| `DefaultLoop.ReachesWindow` | examples/hw-demos/rpi/common/pi-servo.c:145-153 | From any phase error below the step threshold the seeded default loop reaches the PI window in at most one edge per nanosecond |
| `DefaultLoop.SeededLock` | examples/hw-demos/rpi/common/pi-servo.c:78-180 | With a seed good to 5 ppb the default loop locks for good from any phase error that is not a step, by an explicit edge |
| `DefaultLoop.SeededConverges` | examples/hw-demos/rpi/common/pi-servo.c:78-180 | With such a seed, for every tolerance there is an edge after which the energy of phase error and drift-estimate error stays below it |
| `WideLock.LevelShrinks` | examples/hw-demos/rpi/common/pi-servo.c:154-172 | One quadratic shrinks by a fixed factor at every PI edge under both default integral gains |
| `WideLock.SlewLevels` | examples/hw-demos/rpi/common/pi-servo.c:145-153 | The same quadratic does not rise at a slewing edge, clamped or not, and a slewing edge into the window leaves the loop below the level that bounds the estimate or about to cross the window under one gain |
| `WideLock.StoreFalls` | examples/hw-demos/rpi/common/pi-servo.c:154-172 | On the way across the window with an estimate off by almost 1000 ppb, a cubic function of the state falls at every edge under the fast gain, and another under the slow gain |
| `WideLock.CrossEdge` | examples/hw-demos/rpi/common/pi-servo.c:145-172 | A crossing loop comes 2.5 ns further at every edge, and leaves the window with its estimate inside 1000 ppb |
| `WideLock.GuardedForever` | examples/hw-demos/rpi/common/pi-servo.c:145-172 | However often PI and slewing edges alternate, the estimate never gets past what the slewing branch can work with |
| `WideLock.SafeForever` | examples/hw-demos/rpi/common/pi-servo.c:145-172 | Once below the level that bounds the estimate by 1000 ppb, the loop stays below it, and its level never rises |
| `WideLock.BecomesSafe` | examples/hw-demos/rpi/common/pi-servo.c:145-172 | After at most one crossing the quadratic is below the level that bounds the estimate by 1000 ppb |
| `WideLock.ToCore` | examples/hw-demos/rpi/common/pi-servo.c:145-172 | The loop is always back in the window, so its level comes down into the ellipse where it settles |
| `WideLock.DefaultLock` | examples/hw-demos/rpi/common/pi-servo.h:36-50 | With a drift estimate within slew_kp * slew_thresh_ns = 1000 ppb of the true drift, the default loop locks for good from any phase error that is not a step, though it be thrown back into slewing many times: it tracks at every edge, and from some edge on stays in the PI branch with geometrically shrinking energy. A start inside the window with the estimate 977.5 ppb or more off must also have its integral gain settled for the next 500 samples |
| `WideLock.DefaultLockIff` | examples/hw-demos/rpi/common/pi-servo.h:36-50 | Outside the window, and with the estimate less than 1000 ppb off on the other side, the default loop ends up in the PI branch for good if and only if the estimate is less than 1000 ppb short on its own side |
| `WideLock.DefaultConverges` | examples/hw-demos/rpi/common/pi-servo.c:78-180 | From the starts of DefaultLock: for every tolerance there is an edge after which the energy stays below it |
| `StaleLock.StaleSamplesPark` | examples/hw-demos/rpi/common/pi-servo.c:145-186 | A loop half a nanosecond inside the far threshold of the window, its estimate within a ppb of the bound and 121 fast samples left, crosses the window and parks for ever: inside the window the bound alone is not enough |
| `StaleLock.HistoryParks` | examples/hw-demos/rpi/common/pi-servo.c:78-186 | The servo gets there: created, locked, tracked for 2879 samples, reset and acquired again it is in such a state, because a reset keeps the sample count, and it parks |
| `Measured.LevelEdge` | examples/hw-demos/rpi/common/pi-servo.c:145-172 | For every edge period within 2000 ppm of the default and every sample within a nanosecond of the phase error, a PI edge shrinks the wide quadratic but for an explicit addend |
| `Measured.CommonEdge` | examples/hw-demos/rpi/common/pi-servo.c:154-172 | The same for the quadratic of the settled loop |
| `Measured.SlewEdge` | examples/hw-demos/rpi/common/pi-servo.c:145-153 | A slewing edge on such a sample, clamped or not, takes at least 0.033 ns off the phase error and raises neither quadratic |
| `Measured.HeldEdge` | examples/hw-demos/rpi/common/pi-servo.c:145-172 | So the estimate stays within what the slewing branch can work with, in whichever branch the sample falls |
| `MeasuredLock.RoundedIsAccurate` | examples/hw-demos/rpi/crf-listener-rpi.c:261-270 | Samples rounded to whole nanoseconds are accurate enough |
| `MeasuredLock.HeldForever` | examples/hw-demos/rpi/common/pi-servo.c:145-172 | The loop tracks for ever, and its phase error never exceeds what it was or the window |
| `MeasuredLock.ToLow` | examples/hw-demos/rpi/common/pi-servo.c:145-172 | However often slewing and PI edges alternate, the level comes down to where the estimate is within 148 ppb |
| `MeasuredLock.ToOrbit` | examples/hw-demos/rpi/common/pi-servo.c:145-172 | From there the settled quadratic falls at every edge of either branch until no sample leaves the PI branch |
| `MeasuredLock.OrbitsForever` | examples/hw-demos/rpi/common/pi-servo.c:154-172 | From then on every sample, rounded or otherwise off by a nanosecond, is handled by the PI branch, and the energy shrinks geometrically to what the samples' error keeps up |
| `MeasuredLock.MeasuredLocks` | examples/hw-demos/rpi/common/pi-servo.h:36-50 | With integer samples within a nanosecond of the phase error, an estimate within 967 ppb of the true drift and any edge period within 2000 ppm of the default, the loop tracks for ever and ends up in the PI branch for good |
| `ColdStart.SlopeSeeds` | examples/hw-demos/rpi/common/pi-servo.c:121-123 | The slope over the window is within 967 ppb of the true drift when both ends are off by up to 950 ns, in the sample and in the time of the edge alike |
| `ColdStart.ColdStartLocks` | examples/hw-demos/rpi/crf-listener-rpi.c:261-275 | A new servo on the edges of the clock it steers: the samples are the edges minus the timestamps, off by up to 950 ns before lock and 1 ns after; for every drift up to 1998.7 ppm and phase error up to 95 ms it acquires within 602 edges and locks for good |
| `ColdStart.Realised` | examples/hw-demos/rpi/crf-listener-rpi.c:261-270 | For every drift, edge period and phase error there are edges and timestamps in whole nanoseconds that meet those assumptions |
| `Acquisition.Watching` | examples/hw-demos/rpi/common/pi-servo.c:91-118 | Samples inside an unfinished acquisition window leave no trace but the first and the latest |
| `Acquisition.Acquires` | examples/hw-demos/rpi/common/pi-servo.c:113-133 | The sample completing the window locks, with the clamped slope as drift and as correction |
| `Acquisition.AcquiredRatio` | examples/hw-demos/rpi/common/pi-servo.c:121-123 | Over evenly spaced edges the new estimate turns the edge period into the reference period, scaled by the ratio of stored drift to applied correction |
| `Acquisition.Deadbeat` | examples/hw-demos/rpi/common/pi-servo.c:100-133 | One unclamped acquisition window makes the edge period exactly the reference period if and only if the correction in force during it was the stored drift |
| `PwmClock.Clock.Prepare` | examples/hw-demos/rpi/common/bcm2711-pwm-clock.c:166-196 | Preparing writes the nominal divider and its word, or changes nothing when the integer part does not fit |
| `PwmClock.Clock.AdjustFreq` | examples/hw-demos/rpi/common/bcm2711-pwm-clock.c:285-322 | An adjustment is accepted exactly within 1% of nominal; then divider error, last fraction and both divider words are updated, otherwise nothing is |
| `PwmClock.ErrorIsCarried` | examples/hw-demos/rpi/common/bcm2711-pwm-clock.c:305-314 | Over any run, the codes written sum to the dividers requested plus the initial error minus the final error, whatever was rejected, cut off or carried into the integer part |
| `PwmClock.HalfBitIff` | examples/hw-demos/rpi/common/bcm2711-pwm-clock.c:305-312 | An adjustment leaves at most half a bit of error exactly when fraction plus carried error is above -1/2 and at most 4095 1/2 |
| `PwmClock.SafeRunError` | examples/hw-demos/rpi/common/bcm2711-pwm-clock.c:305-312 | With every requested fraction in (0, 4095] the carried error stays within half a bit and the summed error within one bit, over runs of any length |
| `PwmClock.SafeFractionIff` | examples/hw-demos/rpi/common/bcm2711-pwm-clock.c:305-312 | Every carried error within half a bit stays within half a bit if and only if the requested fraction is above 0 and at most 4095 |
| `PwmClock.ZeroFractionFails` | examples/hw-demos/rpi/common/bcm2711-pwm-clock.c:308-311 | A run from preparation at 300 Hz that breaks the bound: 575600 ppb leaves an error of -1/2, then 576000 ppb requests fraction zero, is written as 4095 and leaves -4095.5 |
| `PwmClock.WindsUp` | examples/hw-demos/rpi/common/bcm2711-pwm-clock.c:309-311 | A requested fraction above 4095 makes the carried error grow by at least the excess at every adjustment, from any error and for any number of adjustments |
| `PwmClock.WindsUpExactly` | examples/hw-demos/rpi/common/bcm2711-pwm-clock.c:309-311 | It grows by exactly the excess as long as the rounding stays in the range of the cast |
| `PwmClock.WindsUpInUse` | examples/hw-demos/rpi/common/bcm2711-pwm-clock.c:309-311 | 576400 ppb at 300 Hz is such a correction: n adjustments leave at least n/2 bits |
| `PwmClock.DividerRange` | examples/hw-demos/rpi/common/bcm2711-pwm-clock.c:176-194 | Preparation is refused exactly for frequencies below 12 Hz |
| `PwmClock.WordFitsFields` | examples/hw-demos/rpi/common/bcm2711-pwm-clock.c:303-314 | After any successful preparation, every accepted adjustment keeps the integer part within its 12 bits |
| `PwmClock.WordFields` | examples/hw-demos/rpi/common/bcm2711-pwm-clock.c:303-314 | Password, integer part and fraction are each read back from the register word |
| `PwmClock.WrittenFields` | examples/hw-demos/rpi/common/bcm2711-pwm-clock.c:303-319 | What an accepted adjustment writes has the integer part of the divider asked for and the fraction remembered in their fields |
| `PwmClock.DividerBand` | examples/hw-demos/rpi/common/bcm2711-pwm-clock.c:176-187 | The range keeps the divider between 122 and 489 for every output frequency from 94 Hz to 12 kHz |
| `PwmClock.DividerSteps` | examples/hw-demos/rpi/common/bcm2711-pwm-clock.c:176-187 | The dividers on both sides of the three changes of range |
| `PwmClock.AcceptsIff` | examples/hw-demos/rpi/common/bcm2711-pwm-clock.c:293-301 | An adjustment is refused exactly beyond one percent |
| `PwmClock.ServoRangeAccepted` | examples/hw-demos/rpi/common/bcm2711-pwm-clock.c:296-301 | Corrections inside the default servo clamp are never rejected |
| `PwmClock.DefaultFractionSafe` | examples/hw-demos/rpi/common/bcm2711-pwm-clock.c:293-312 | At 300 Hz every correction up to 575 ppm requests a fraction for which the half-bit bound holds |
| `Rp1Clock.SteeringConstants` | examples/hw-demos/rpi/common/rp1-clock.c:206-212 | The steering constants computed at initialisation: ppb per bit, and 5277656 codes of authority |
| `Rp1Clock.Clock.constructor` | examples/hw-demos/rpi/common/rp1-clock.c:206-212 | Initialisation sets the centre and the steering constants |
| `Rp1Clock.Clock.Adjust` | examples/hw-demos/rpi/common/rp1-clock.c:346-372 | An adjustment writes the clamped, rounded fraction and never takes the range-exhausted branch |
| `Rp1Clock.AlwaysInRange` | examples/hw-demos/rpi/common/rp1-clock.c:361-366 | The fraction stays inside 24 bits for every correction whatever |
| `Rp1Clock.RealisedWithinHalfLsb` | examples/hw-demos/rpi/common/rp1-clock.c:353-359 | Corrections up to 1% are realised to within half of the last fraction bit |
| `Rp1Clock.TrimIsMonotone` | examples/hw-demos/rpi/common/rp1-clock.c:353-361 | A larger correction never gives a smaller fraction |
| `Rp1Clock.SaturatesAtAuthority` | examples/hw-demos/rpi/common/rp1-clock.c:353-361 | From 1% on, either way, the correction is cut off at what the PLL realises as 1% to within half of the last bit |
| `Steering.DefaultServoIsApplied` | examples/hw-demos/rpi/common/pi-servo.c:164-167 | Every correction the default servo can ever return, over all runs, is accepted by the PWM clock and realised unclamped to half a bit by the RP1 clock |
| `XskSocket.Socket.constructor` | examples/hw-demos/rpi/common/xsk-util.c:406-411 | Creation hands every frame to the fill ring and leaves the receive ring empty |
| `XskSocket.Socket.Prepopulate` | examples/hw-demos/rpi/common/xsk-util.c:406-409 | Slot i of the fill ring holds the address of frame i |
| `XskSocket.Socket.RxPeek` | examples/hw-demos/rpi/common/xsk-util.c:539-547 | A peek returns the published but unconsumed entries, limited to the batch |
| `XskSocket.Socket.RxPacket` | examples/hw-demos/rpi/common/xsk-util.c:549-557 | Packet i of a batch is the entry that an unbounded consumer counter plus i stands for, although counter and slot are computed in 32 bits |
| `XskSocket.Socket.Kernel` | examples/hw-demos/rpi/common/xsk-util.c:539-578 | Any kernel steps taken between two calls of user code keep the ownership invariant and the batch to be read |
| `XskSocket.Socket.ReadBatch` | examples/hw-demos/rpi/aaf-listener-rpi.c:399-424 | With kernel steps before every read, what is read in order is what was there at the peek |
| `XskSocket.Socket.Release` | examples/hw-demos/rpi/common/xsk-util.c:559-578 | Releasing no more than what is there keeps the ownership invariant and advances both unbounded counters by the count |
| `XskSocket.Socket.RxRelease` | examples/hw-demos/rpi/common/xsk-util.c:559-578 | A release changes fill slots, producer, consumer and cached counters exactly as the specification of a whole release |
| `XskSocket.Socket.CopyEntries` | examples/hw-demos/rpi/common/xsk-util.c:562-573 | The copy loop leaves the fill ring with the released addresses behind its old producer |
| `XskSocket.Socket.CopyEntry` | examples/hw-demos/rpi/common/xsk-util.c:562-573 | One pass of it copies one address from the masked receive slot to the masked fill slot |
| `XskSocket.Socket.Serve` | examples/hw-demos/rpi/aaf-listener-rpi.c:399-424 | One round of the audio listener, with kernel steps before every read and before the release, reads a batch in order as it was at the peek, gives exactly that batch back, and leaves every frame in one place |
| `XskSocket.ReleaseIsRun` | examples/hw-demos/rpi/common/xsk-util.c:559-578 | A release is a run of the single memory operations of the ring protocol |
| `XskSocket.ReleaseKeeps` | examples/hw-demos/rpi/common/xsk-util.c:559-578 | Releasing no more than what is available is, seen through the 32-bit wrap, a release of the unbounded rings that keeps the ownership invariant |
| `XskRings.StepKeeps` | examples/hw-demos/rpi/common/xsk-util.c:559-578 | Every step of kernel or user code keeps each frame in exactly one of fill ring, kernel, and unreleased receive entries |
| `XskRings.StepsAgree` | examples/hw-demos/rpi/common/xsk-util.c:539-578 | The machine with 32-bit counters and masked slots takes the same steps as the one with unbounded counters |
| `XskRings.RunKeeps` | examples/hw-demos/rpi/common/xsk-util.c:539-578 | Every interleaving of kernel and user steps, through any number of counter wraps, keeps the invariant |
| `XskRings.CreatedInv` | examples/hw-demos/rpi/common/xsk-util.c:406-411 | The rings as created satisfy the invariant |
| `XskRings.ReleaseFits` | examples/hw-demos/rpi/common/xsk-util.c:562-573 | What a release writes always fits the fill ring, although the code makes no check for room |
| `XskRings.OnePlace` | examples/hw-demos/rpi/common/xsk-util.c:559-578 | Each frame is in exactly one place, and nothing else is in any |
| `XskRings.NoOverwrite` | examples/hw-demos/rpi/common/xsk-util.c:562-573 | The slot a release writes, computed with 32-bit counters, holds no entry the kernel has yet to read |
| `XskRings.EveryRunIsSafe` | examples/hw-demos/rpi/common/xsk-util.c:406-578 | From creation on, for every run: one place per frame, no unread fill slot overwritten |
| `XskRings.KernelKeepsBatch` | examples/hw-demos/rpi/common/xsk-util.c:539-578 | No kernel step changes an entry that is there to be read |
| `XskRings.KernelRunKeepsBatch` | examples/hw-demos/rpi/common/xsk-util.c:539-578 | Nor does any run of kernel steps with 32-bit counters |
| `MediaClock.Clock.DequeueTs` | examples/crf-listener.c:214-225 | The oldest timestamp is taken off the queue |
| `MediaClock.Clock.EnqueueTs` | examples/crf-listener.c:227-241 | A timestamp goes to the back of the queue |
| `MediaClock.Clock.GetNext` | examples/crf-listener.c:243-257 | The next tick comes from the queue or, when it is dry, is one period after the previous one and asks for a search |
| `MediaClock.Clock.Lookup` | examples/crf-listener.c:259-267 | The search returns the first matching tick, after at most as many questions as there are queued timestamps plus 2^29 |
| `MediaClock.Clock.RecoverMclk` | examples/crf-listener.c:626-662 | The 160 ticks of a CRF packet that are later than the clock join the queue in order |
| `MediaClock.Clock.ArmTimer` | examples/crf-listener.c:758-775 | A talker's first CRF packet takes the earliest recovered tick to arm its timer, without advancing the previous tick |
| `MediaClock.Clock.HandleAudio` | examples/crf-listener.c:696-730 | An audio packet is searched for after freewheeling, otherwise compared with the next tick; the stream is aligned if and only if the packet is at most 5208 ns early or late of the tick taken, modulo 2^32 |
| `MediaClock.AlignedIff` | examples/crf-listener.c:664-686 | Aligned means at most 5208 ns early or late, whatever the wrap of the 32-bit difference |
| `MediaClock.AskTimesIs` | examples/crf-listener.c:243-257 | n questions return the queue and then the last known value plus one period at a time |
| `MediaClock.TicksTo` | examples/crf-listener.c:259-267 | Freewheeling reaches every residue that agrees with its start modulo 8, the greatest common divisor of 125000 and 2^32, within 2^29 ticks |
| `MediaClock.SearchEndsIff` | examples/crf-listener.c:259-267 | The search ends if and only if a queued timestamp matches or the target agrees with the last known clock value modulo 8 |
| `MediaClock.Witness` | examples/crf-listener.c:259-267 | When it ends, a match is found within queue length plus 2^29 questions |
| `MediaClockRuns.AnswersOnGrid` | examples/crf-listener.c:243-257 | With any losses, any interleaving and wherever the clock had freewheeled to, the answers from the first recovered tick on are strictly increasing and on the talker's grid |
| `MediaClockRuns.AnswersAreTicks` | examples/crf-listener.c:626-662 | With no losses the answers from the first recovered tick on are every later tick of the grid in turn, recovered or freewheeled; the first is the talker's first unless the clock had freewheeled past it |
| `MediaClockRuns.AnswerIs` | examples/crf-listener.c:243-257 | Answer k from the first recovered tick on is exactly k periods after it |
| `MediaClockRuns.TalkerIsOnGrid` | examples/crf-talker.c:225-256 | The packets assumed are the ones the CRF talker sends |
| `CrfTalker.Timestamps` | examples/crf-talker.c:230-232 | The six timestamps of a packet, timestamp i being i times 3333333 ns after the first |
| `CrfTalker.Advance` | examples/crf-talker.c:250-254 | The carry of the seconds and nanoseconds pair adds exactly one transmit interval and leaves the nanoseconds below a second |
| `CrfTalker.StampIs` | examples/crf-talker.c:225-256 | Timestamp i of packet m, in nanoseconds |
| `CrfTalker.Send` | examples/crf-talker.c:225-256 | Packets are numbered modulo 256, and timestamp i of packet m is start plus transit time plus m times 20 ms plus i times 3333333 ns, for ever |
| `NalStream.NextStartIs` | examples/cvf-talker.c:185-203 | The naive search returns the least start code position, or says there is none |
| `NalStream.SegmentsFlatten` | examples/cvf-talker.c:307-333 | Cutting a stream at its start codes loses nothing |
| `NalStream.StartInPrefix` | examples/cvf-talker.c:185-203 | A start code found in what has been read is the one found in all of the stream |
| `NalTalker.Talker.constructor` | examples/cvf-talker.c:299-305 | The talker starts with an empty buffer and sequence number zero |
| `NalTalker.Talker.FillBuffer` | examples/cvf-talker.c:170-183 | What a read delivers is appended to the buffer |
| `NalTalker.Talker.StartCodePosition` | examples/cvf-talker.c:185-203 | The skip-ahead search finds exactly what the naive search finds |
| `NalTalker.SkipThree` | examples/cvf-talker.c:189-200 | Skipping three positions passes over no start code |
| `NalTalker.Talker.FindNal` | examples/cvf-talker.c:248-261 | The bounds of the first NAL unit in the buffer, its end known only from the next start code or the end of input |
| `NalTalker.Talker.ProcessNal` | examples/cvf-talker.c:240-285 | The first NAL unit becomes a numbered packet and leaves the buffer, nothing happens while its end is unknown, and a unit above 1400 bytes is an error |
| `NalTalker.Talker.Shift` | examples/cvf-talker.c:276-279 | What follows the NAL unit moves to the front of the buffer |
| `NalTalker.FirstUnit` | examples/cvf-talker.c:248-261 | A NAL unit with both ends in what has been read is the first of the whole stream, however the reads fall and whatever comes before it |
| `NalTalker.OverfullUnit` | examples/cvf-talker.c:170-183 | In a separable stream a full buffer without a whole NAL unit holds none at all or one too long for a packet, so a zero-length read is the end of the input or comes before an error that is right |
| `NalTalker.Taken` | examples/cvf-talker.c:263-281 | A NAL unit taken is the first unit of the stream, and the buffer is left at the next |
| `NalTalker.NothingToCome` | examples/cvf-talker.c:248-261 | At the last call a buffer without a NAL unit leaves none to come |
| `NalTalker.CutOne` | examples/cvf-talker.c:315-329 | One pass of the inner loop sends the next NAL unit, stops, or fails on one that is too long |
| `NalTalker.DrainOne` | examples/cvf-talker.c:315-329 | The same, with the packets so far numbered and accounting for the units taken |
| `NalTalker.Drain` | examples/cvf-talker.c:315-329 | The inner loop sends every complete NAL unit in the buffer |
| `NalTalker.Pass` | examples/cvf-talker.c:307-333 | One read and the packets it makes possible account for the NAL units of the stream |
| `NalTalker.Run` | examples/cvf-talker.c:307-333 | For every input and however reads cut it: the packets are the NAL units of as much of the input as the talker reaches, in order, numbered, up to the first above 1400 bytes, and it ends without error exactly when there is none; and that is so for the whole input if and only if the input is separable |
| `NalTalker.NoUnitReached` | examples/cvf-talker.c:170-183 | In an input that is not separable the buffer fills up without a whole NAL unit |
| `NalTalker.LosesUnits` | examples/cvf-talker.c:248-285 | What the talker then sends, or its error, is not what the input's NAL units call for |
| `NalTalker.ShortLead` | examples/cvf-talker.c:170-183 | Every input with at most 1453 bytes before its first start code is separable |
| `NalTalker.MaxLeadIsExact` | examples/cvf-talker.c:170-183 | For every longer lead there is an input of two short units that is not separable |
| `NalTalker.SentPackets` | examples/cvf-talker.c:205-235 | Packet i carries the i-th unit, is numbered i modulo 256 and announces the unit's length and 4 bytes of H.264 header |
| `NalListener.Listener.constructor` | examples/cvf-listener.c:123-125 | The listener starts with nothing queued, nothing written and no timer |
| `NalListener.Listener.ScheduleNal` | examples/cvf-listener.c:125-158 | A NAL unit joins the queue; the timer is armed when it is the first |
| `NalListener.Listener.NewPacket` | examples/cvf-listener.c:256-316 | A packet is cut to its data length and scheduled for its presentation time |
| `NalListener.Listener.Timeout` | examples/cvf-listener.c:318-352 | An expiry writes the oldest NAL unit and arms the timer for the next |
| `NalListener.InOrder` | examples/cvf-listener.c:125-352 | However deliveries and expiries interleave, bytes written and bytes waiting are the payloads delivered, in order, and the timer stands for the head of the queue |
| `NalListener.StepKeepsTimes` | examples/cvf-listener.c:125-352 | One delivery or expiry: what it presents and what then waits is what waited and what it brings, each unit with its own time |
| `NalListener.PresentedOnTime` | examples/cvf-listener.c:125-352 | Over every run each NAL unit is presented in one piece, in the order of delivery, by the expiry of a timer armed for the very time it was delivered with |
| `NalListener.PackedPayloads` | examples/cvf-listener.c:256-270 | The listener extracts from a talker's packet exactly the NAL unit put in |
| `NalListener.EndToEnd` | examples/cvf-listener.c:318-352 | Once all is presented the listener has written a prefix of the talker's input from its first start code on, and all of that if the talker ended without error on a separable input |
| `CrfReceiver.Receiver.constructor` | examples/hw-demos/rpi/common/crf-receiver.c:62-72 | A new receiver waits for its first packet |
| `CrfReceiver.Receiver.Process` | examples/hw-demos/rpi/common/crf-receiver.c:161-177 | One accepted packet updates expected number, packet count and drop count, and yields the gap to report |
| `CrfReceiver.GapIsBurst` | examples/hw-demos/rpi/common/crf-receiver.c:163-166 | The 8-bit gap is the burst modulo 256, exact exactly below 256 |
| `CrfReceiver.Counts` | examples/hw-demos/rpi/common/crf-receiver.c:163-177 | Through any number of wraps the packet count is exact, and the drop count is exact if and only if every burst is shorter than 256 |
| `CrfReceiver.Conserved` | examples/hw-demos/rpi/common/crf-receiver.c:163-177 | Received plus dropped is everything sent from the first to the last arrival, if and only if every burst is shorter than 256 |
| `EdgeListener.Listener.constructor` | examples/hw-demos/rpi/crf-listener-rpi.c:234-299 | The listener starts unsynchronized with a new servo |
| `EdgeListener.Listener.Synchronize` | examples/hw-demos/rpi/crf-listener-rpi.c:199-232 | The edges taken are all too old but the last; the search succeeds on one within tolerance, and fails on one too new or on an empty queue |
| `EdgeListener.SearchIs` | examples/hw-demos/rpi/crf-listener-rpi.c:199-232 | For every queue: the search takes edges off the front, all too old but the last, succeeds if and only if the last is within tolerance, and fails on one too new, which is gone too, or when the queue runs dry |
| `EdgeListener.Listener.TakeEdge` | examples/hw-demos/rpi/crf-listener-rpi.c:269-282 | A paired edge is sampled, the correction applied when locked and not frozen |
| `EdgeListener.Listener.OneTimestamp` | examples/hw-demos/rpi/crf-listener-rpi.c:243-282 | One timestamp is searched for, missed, or paired with the edge at the head |
| `EdgeListener.Listener.OnTimestamps` | examples/hw-demos/rpi/crf-listener-rpi.c:234-299 | The timestamps of a packet are handled one after the other |
| `EdgeListener.Listener.OnDrop` | examples/hw-demos/rpi/crf-listener-rpi.c:301-318 | A reported gap drains one edge for each timestamp of as many packets |
| `EdgePairing.PacketInStep` | examples/hw-demos/rpi/crf-listener-rpi.c:243-282 | In step, every timestamp of a packet is paired with its own edge and nothing is missed |
| `EdgePairing.DrainIff` | examples/hw-demos/rpi/crf-listener-rpi.c:301-318 | After draining, the next packet's first edge is at the head if and only if fewer than 256 packets were lost; otherwise the edges of those the 8-bit gap cannot count are left |
| `EdgePairing.PacketLocked` | examples/hw-demos/rpi/crf-listener-rpi.c:234-318 | A packet after a short burst is drained for, paired and leaves the listener in step |
| `EdgePairing.StaysInStep` | examples/hw-demos/rpi/crf-listener-rpi.c:234-318 | Over every run with bursts shorter than 256, synchronization is never lost and every servo sample is edge k minus timestamp k |
| `EdgePairing.SearchFindsOwnEdge` | examples/hw-demos/rpi/crf-listener-rpi.c:199-232 | Behind older edges the search finds the timestamp's own edge and is in step from there |
| `EdgePairing.FirstPacketLocks` | examples/hw-demos/rpi/crf-listener-rpi.c:199-299 | The first packet a waiting listener receives puts it in step: the search stops at the first timestamp's own edge and all the other timestamps are paired |
| `EdgePairing.LocksAndStays` | examples/hw-demos/rpi/crf-listener-rpi.c:199-318 | Starting unsynchronized, with bursts shorter than 256, every timestamp received after the first is sampled against its own edge |
| `EdgePairing.RunKeepsLock` | examples/hw-demos/rpi/crf-listener-rpi.c:261-275 | Whatever the edges and timestamps, a tolerance within the step threshold makes servo lock permanent and every applied correction is inside the clamp |
| `EdgeRecovery.OutOfStep` | examples/hw-demos/rpi/crf-listener-rpi.c:261-267 | Out of step, an edge is dropped and counted as missed, nothing is sampled, and the listener has to search |
| `EdgeRecovery.FindsOwn` | examples/hw-demos/rpi/crf-listener-rpi.c:243-248 | Searching, a timestamp finds its own edge behind whatever older edges are left |
| `EdgeRecovery.Recovers` | examples/hw-demos/rpi/crf-listener-rpi.c:243-282 | Two timestamps in a row put a listener in step from wherever it is behind, and from the third on at the latest each is paired with its own edge |
| `EdgeRecovery.BurstRecovers` | examples/hw-demos/rpi/crf-listener-rpi.c:234-318 | Locked before, locked after, whatever was lost in between: a burst of 256 packets or more costs one miss and the first two pairs |
| `EdgeRecovery.OneStampSearchesOn` | examples/hw-demos/rpi/crf-listener-rpi.c:234-318 | With one timestamp to a packet that takes the next packet as well |
| `EdgeRecovery.AlwaysRecovers` | examples/hw-demos/rpi/crf-listener-rpi.c:234-318 | Over every run with losses of any length, the listener is in step after every packet, misses one edge for each burst of 256 packets or more, and samples every other timestamp against its own edge but the one it then searches with |
| `EdgeRecovery.SpacedIsOlder` | examples/hw-demos/rpi/crf-listener-rpi.c:261-263 | Timestamps more than twice the tolerance apart have edges that cannot be taken for one another |
| `EdgeRecovery.DefaultIsSpaced` | examples/hw-demos/rpi/common/crf-profile.h:146-150 | With the default tolerance that is 3333333 ns, the period of the default talker, to the nanosecond |
| `EdgeHistory.SampledRecords` | examples/hw-demos/rpi/crf-listener-rpi.c:269-282 | Sampling one pair, before, at and after the update that freezes the clock |
| `EdgeHistory.RunRecords` | examples/hw-demos/rpi/crf-listener-rpi.c:234-318 | Over every run with any edges, timestamps and losses, servo, update count, frozen flag and corrections are functions of the pairs sampled |
| `EdgeHistory.ClockHistory` | examples/hw-demos/rpi/crf-listener-rpi.c:261-282 | From creation, the clock has been given exactly the corrections of a servo fed the pairs alone, up to the pair that freezes it and none after; every pair is within tolerance |
| `EdgeHistory.OneCounted` | examples/hw-demos/rpi/crf-listener-rpi.c:243-282 | A timestamp is sampled, missed or searched with; unless it searches it takes one edge if there is any, and an empty queue does not cost the synchronization |
| `EdgeHistory.EveryTimestampCounted` | examples/hw-demos/rpi/crf-listener-rpi.c:234-299 | Updates, misses and searches of a packet add up to its timestamps |
| `EdgeHistory.DropCountsAgree` | examples/hw-demos/rpi/crf-listener-rpi.c:301-318 | Over every run the listener counts the same lost packets as the receiver |
| `Words.SignedIs` | examples/hw-demos/rpi/crf-listener-rpi.c:261-261 | The signed phase error is the one number of 64 bits congruent to the difference |
| `EdgePairing.DefaultIsSafe` | examples/hw-demos/rpi/common/crf-profile.h:146-150 | The default profile and servo meet those conditions |
| `ClosedLoop.FollowsAll` | examples/hw-demos/rpi/crf-listener-rpi.c:243-282 | In step, the listener's servo and the correction in force are those of the closed loop after every number of timestamps |
| `ClosedLoop.EdgesStayClose` | examples/hw-demos/rpi/crf-listener-rpi.c:261-275 | Every edge of the steered clock is within the listener's tolerance of its timestamp, because the servo converges |
| `ClosedLoop.RunsOn` | examples/hw-demos/rpi/crf-listener-rpi.c:234-318 | So over every run of packets and captures without a loss, no edge is missed |
| `ClosedLoop.ListenerLocks` | examples/hw-demos/rpi/crf-listener-rpi.c:199-299 | From its first packet on, on the edges of the clock it steers and assuming only the edges up to the synchronizing one close to their timestamps, a new listener never misses an edge, tracks after at most 602 samples, and from some sample on has every edge within 500 ns of its timestamp |
| `CrfPipeline.Process` | examples/hw-demos/rpi/common/crf-receiver.c:141-182 | A received packet is parsed, counted, drained for and paired; one that is not accepted changes nothing |
| `CrfPipeline.Deliver` | examples/hw-demos/rpi/common/crf-receiver.c:161-179 | An accepted packet updates receiver and listener as specified, with the drop reported before the timestamps |
| `CrfPipeline.TalkerPacketParses` | examples/hw-demos/rpi/crf-talker-rpi.c:208-313 | In both modes the talker's packet is accepted with its sequence number and timestamps, for every encodable profile |
| `CrfPipeline.TalkerPacketIsEvent` | examples/hw-demos/rpi/common/crf-receiver.c:141-182 | Receiving the talker's packet from the wire is the packet event of the pairing machine |
| `CrfPipeline.TakenIff` | examples/hw-demos/rpi/common/crf-receiver.c:152-158 | A strict listener takes up a packet exactly when it is of the stream and every field is the profile's |
| `CrfPipeline.TurnsAreEvents` | examples/hw-demos/rpi/common/crf-receiver.c:141-182 | A run on the wire, rejected packets included, is the run of the pairing machine on the talker's packets alone |
| `CrfPipeline.WireStaysInStep` | examples/hw-demos/rpi/common/crf-receiver.c:141-182 | Whatever rejected traffic is mixed in and whatever is lost in short bursts, a locked listener pairs edge k with timestamp k |
| `CrfPipeline.WireLocksAndStays` | examples/hw-demos/rpi/common/crf-receiver.c:141-182 | The same from a listener not synchronized and a receiver that has seen nothing, among rejected traffic on the wire |
| `CrfPipeline.WireAlwaysRecovers` | examples/hw-demos/rpi/common/crf-receiver.c:141-182 | On the wire, with rejected traffic and bursts of any length, the listener is back in step after every packet |
| `PresentationTime.GetPresentationTime` | examples/common.c:66-96 | The presentation time is the clock's upper half joined to the packet's lower half, moved up when it lies behind the clock |
| `PresentationTime.RebuiltRange` | examples/common.c:77-90 | The result is the one number with the packet's low bits in the 2^32 that start at the clock reading |
| `PresentationTime.RebuiltIff` | examples/common.c:77-90 | Reconstruction is exact if and only if the listener's clock has not passed the presentation time and is less than 2^32 ns short of it |
| `PresentationTime.CorrectedIff` | examples/hw-demos/rpi/aaf-listener-rpi.c:196-213 | With readings less than 2^31 ns apart, the correction by the second reading is exact if and only if the presentation time is less than 2^31 ns past and at most 2^31 ns ahead of it |
| `PresentationTime.CorrectedRange` | examples/hw-demos/rpi/aaf-listener-rpi.c:207-212 | Whatever the packet says, the result is within 2^31 ns of the second reading, or has wrapped below zero |
| `PresentationTime.CorrectedAfterStall` | examples/hw-demos/rpi/aaf-listener-rpi.c:196-213 | With the second reading 2^31 to 3 * 2^31 ns after the first, it is exact if and only if the presentation time is at most 2^31 ns past and less than 2^31 ns ahead |
| `PresentationTime.HalfSpanLateFails` | examples/hw-demos/rpi/aaf-listener-rpi.c:207-212 | An instance: a packet exactly 2^31 ns late is taken for 2^31 ns early |
| `PresentationTime.EndToEnd` | examples/common.c:46-96 | The packet carries the low half of the talker's clock plus the transit time in nanoseconds, and the listener presents it at exactly that time if and only if it is not yet due and due within 2^32 ns |
| `BitField.ValueOfBits` | src/util.h:44-45 | A number written into a field keeps its residue modulo two to the width |
| `BitField.BitsOfValue` | src/util.h:38-39 | A word and its number determine each other |
| `BitField.MaskBit` | src/util.h:30-32 | The mask covers exactly the bits of the field |
| `BitField.SetBit` | src/util.h:44-45 | A write changes the bits of its field and no other |
| `BitField.GetIsSlice` | src/util.h:38-39 | A read is the number in the bits of the field |
| `BitField.GetAfterSet` | src/util.h:30-45 | Set then get returns the value modulo two to the width, for every word and place |
| `BitField.GetElsewhere` | src/util.h:30-45 | A set is not seen through any disjoint place |
| `BitField.GetIsDigits` | src/util.h:38-39 | A read is the number of the word, divided by what is below the field and cut to its width |
| `BitField.SetAdds` | src/util.h:44-45 | Writing a field that is zero adds the value, cut to its width, at the field's place |
| `BitField.SetWhatIsThere` | src/util.h:30-45 | Writing back what was read changes nothing |
| `BitField.WholeWord` | src/avtp_crf.c:143-146 | A field as wide as its word is the word |
| `Header.FilledHolds` | examples/hw-demos/rpi/common/crf-profile.c:273-291 | After a table of writes to disjoint fields each holds its value, cut to its width |
| `Header.SettingHolds` | examples/hw-demos/rpi/common/crf-profile.c:273-291 | In any format whose fields share no bit, every field set holds its setting, cut to its width |
| `Header.FilledTotal` | examples/hw-demos/rpi/common/crf-profile.c:273-291 | Filling a cleared header with disjoint fields makes every word the sum of their values at their places |
| `Header.WordIsSum` | examples/hw-demos/rpi/common/crf-profile.c:273-291 | The same for any format whose fields share no bit |
| `Header.FilledElsewhere` | examples/hw-demos/rpi/common/crf-profile.c:286-291 | Fields outside the table keep what they had |
| `CrfProfile.OneTable` | src/avtp_crf.c:122-153 | Fields read by mask and the stream id read whole follow one table |
| `CrfProfile.FieldsApart` | src/avtp_crf.c:36-58 | No two fields of the CRF header share a bit |
| `CrfProfile.FieldOnWire` | src/avtp_crf.c:36-58 | Every field is read from its digits in the number its header word stands for |
| `CrfProfile.WriteThenRead` | src/avtp_crf.c:36-233 | For every header, value and pair of CRF fields: the field written reads as the value modulo its width, any other as before |
| `CrfProfile.Pdu.Put` | src/avtp_crf.c:155-267 | Setting a field rewrites its header word |
| `CrfProfile.Pdu.Init` | examples/hw-demos/rpi/common/crf-profile.c:261-294 | Initialisation makes the header the profile's whatever was there, and leaves the timestamps |
| `CrfProfile.Pdu.Parse` | examples/hw-demos/rpi/common/crf-profile.c:140-259 | A parse gives status, reported field and contents exactly as specified: length, ownership, then the checks in order |
| `CrfProfile.StatusIs` | examples/hw-demos/rpi/common/crf-profile.c:140-185 | For every packet: which are malformed, of another subtype, and of another stream, in that order, with nothing reported |
| `CrfProfile.EncodedFields` | examples/hw-demos/rpi/common/crf-profile.c:261-294 | What every field of an encoded header reads as, base frequency and pull cut to their widths |
| `CrfProfile.EncodedWords` | examples/hw-demos/rpi/common/crf-profile.c:261-294 | The three header words of an encoded profile, their widths and their numbers |
| `CrfProfile.EncodeThenParse` | examples/hw-demos/rpi/common/crf-profile.c:140-294 | Encode then strict parse accepts exactly the encodable profiles, and returns the timestamps put in |
| `CrfProfile.SignalledPacketParses` | examples/hw-demos/rpi/common/crf-profile.c:238-258 | In both modes a packet with any restart and uncertainty bits and any sequence number is accepted, and reports those bits, that number and the timestamps |
| `CrfProfile.StrictIsCleanLenient` | examples/hw-demos/rpi/common/crf-profile.c:121-138 | On every packet strict acceptance is lenient acceptance with nothing reported, with the same contents |
| `CrfProfile.LenientRejectsFor` | examples/hw-demos/rpi/common/crf-profile.c:187-236 | Lenient rejects a packet of the stream exactly for a legacy field that differs or data too short, and names one of these |
| `CrfProfile.StrictAcceptsFor` | examples/hw-demos/rpi/common/crf-profile.c:182-236 | Strict accepts a packet of the stream exactly when every field is the profile's |
| `CrfProfile.LenientTakes` | examples/hw-demos/rpi/common/crf-profile.c:140-259 | A lenient listener accepts a talker's packet if and only if the timestamp count is usable and the base frequency fits 29 bits, whatever the pull |
| `CrfProfile.WidePullSlipsThrough` | examples/hw-demos/rpi/common/crf-profile.c:204-216 | An instance: a pull code too wide for its field goes out truncated, and a lenient listener accepts it and reports the pull |
| `AafProfile.OneTable` | src/avtp_aaf.c:94-218 | Stream fields, whole words and the 32-bit setter of the AAF fields follow one table |
| `AafProfile.FieldsApart` | src/avtp_aaf.c:36-47 | No two fields of the AAF header share a bit |
| `AafProfile.FieldOnWire` | src/avtp_aaf.c:36-47 | Every field is read from its digits in the number its header word stands for |
| `AafProfile.WriteThenRead` | src/avtp_aaf.c:36-180 | For every header, value and pair of AAF fields: the field written reads as the value modulo its width, any other as before |
| `AafProfile.Pdu.Put` | src/avtp_aaf.c:182-216 | Setting a field rewrites its header word |
| `AafProfile.Pdu.Init` | examples/hw-demos/rpi/common/aaf-profile.c:237-271 | Initialisation makes the header the profile's whatever was there, and leaves the payload |
| `AafProfile.Pdu.Parse` | examples/hw-demos/rpi/common/aaf-profile.c:142-235 | A parse gives status, reported field and contents exactly as specified |
| `AafProfile.StatusIs` | examples/hw-demos/rpi/common/aaf-profile.c:142-180 | For every packet: which are malformed, of another subtype, and of another stream, in that order, with nothing reported |
| `AafProfile.EncodedFields` | examples/hw-demos/rpi/common/aaf-profile.c:237-271 | What every field of an encoded header reads as, sample rate code, sparse bit and data length cut to their widths |
| `AafProfile.EncodedWords` | examples/hw-demos/rpi/common/aaf-profile.c:237-271 | The five header words of an encoded profile, their widths and their numbers |
| `AafProfile.EncodeThenParse` | examples/hw-demos/rpi/common/aaf-profile.c:142-271 | Encode then strict parse accepts exactly the encodable profiles, and hands out the payload sent |
| `AafProfile.TalkerPacketParses` | examples/hw-demos/rpi/common/aaf-profile.c:220-234 | In both modes a packet with any sequence number and timestamp is accepted, and reports that timestamp, that number and the payload |
| `AafProfile.StrictIsCleanLenient` | examples/hw-demos/rpi/common/aaf-profile.c:124-140 | On every packet strict acceptance is lenient acceptance with nothing reported, with the same contents |
| `AafProfile.LenientRejectsFor` | examples/hw-demos/rpi/common/aaf-profile.c:182-218 | Lenient rejects a packet of the stream exactly for a legacy field that differs, and names one of these |
| `AafProfile.StrictAcceptsFor` | examples/hw-demos/rpi/common/aaf-profile.c:182-218 | Strict accepts a packet of the stream exactly when every checked field is the profile's; the sv bit is not checked |
| `AafProfile.LenientTakes` | examples/hw-demos/rpi/common/aaf-profile.c:142-235 | A lenient listener accepts a talker's packet if and only if the profile is usable, the sample rate code fits 4 bits and the data length 16, whatever the sparse bit |
| `AafProfile.WideSparseSlipsThrough` | examples/hw-demos/rpi/common/aaf-profile.c:182-218 | An instance: a sparse code too wide for its bit goes out truncated, and a lenient listener accepts it and reports the sparse bit |
| `ProfileCheck.Report.NoteMismatch` | examples/hw-demos/rpi/common/crf-profile.c:121-138 | A mismatch is recorded; it rejects when legacy or strict |
| `ProfileCheck.Report.CheckAll` | examples/hw-demos/rpi/common/crf-profile.c:205-217 | The loop over the table stops at the first rejecting check and leaves the report of the last mismatch |
| `ProfileCheck.AcceptedIff` | examples/hw-demos/rpi/common/crf-profile.c:205-217 | A list of checks is accepted exactly when none of them rejects |
| `ProfileCheck.FirstRejection` | examples/hw-demos/rpi/common/crf-profile.c:205-217 | A rejection names the first check that rejects |
| `ProfileCheck.LastReported` | examples/hw-demos/rpi/common/crf-profile.c:121-138 | An accepted list reports the last check that differed |
| `ProfileCheck.CleanIffStrict` | examples/hw-demos/rpi/common/crf-profile.c:121-138 | Lenient with nothing reported is strict acceptance |

## Left out

- MediaClock.Clock.Lookup: requires that the search can end, because the source loops for ever otherwise; `SearchEndsIff` says exactly when that is.
- MediaClock.Clock.HandleAudio: requires the same when it searches.
- MediaClock.Clock.ArmTimer: requires a recovered tick in the queue, because the source takes the head without looking; `MediaClockRuns` shows that there is one for a first packet that is not late.
- NalTalker.Talker.StartCodePosition: requires two bytes in the buffer, because the source subtracts two from an unsigned level.
- NalTalker.Run: the first read delivers two bytes and the input is not a single byte, because the source subtracts two from an unsigned level; a read error is not modelled.
- NalListener.Listener.NewPacket: requires a packet that carries the bytes it announces and at most 1400 of them, because the source copies what is announced into an entry of that size.
- PwmClock.Clock.Prepare: only the divider arithmetic, for a frequency above zero; the register sequence around it is hardware.
- PwmClock.DefaultFractionSafe: covers 300 Hz; `HalfBitIff` gives the condition for every frequency and correction.
- Rp1Clock.Clock.constructor: only the steering constants; PLL start-up is hardware.
- SlewRegime.EscapesIff: for loops that no edge throws past the opposite threshold; `JumpsOver` shows that beyond this it depends on the phase error, and `WithinAuthority` that no estimate within the bound is excluded.
- WideLock.DefaultLock: for a loop that starts in the window with an estimate 977.5 to 1000 ppb off, the integral gain must not be about to change: 500 fast samples left, or none and 500 to the wrap of the counter. `StaleSamplesPark` shows that the bound alone does not do; which of the other starts park is not decided. The true drift is within 1998700 ppb, so that the clamp leaves room.
- WideLock.DefaultLockIff: for loops outside the window; an estimate 1000 ppb or more off on the other side is left to `SlewRegime`.
- MeasuredLock.MeasuredLocks: estimates between 967 and 1000 ppb off are left to `WideLock`, where samples do not err.
- ColdStart.ColdStartLocks: samples off by up to 950 ns before lock and 1 ns after, so that the acquired estimate is within 967 ppb; a phase error of at most 95 ms, so that no sample is a step.
- ClosedLoop.ListenerLocks: without packets lost after the first, because a lost packet's edges are not sampled and the clock coasts; the tolerance has room for what the drift adds in two seconds, since otherwise the listener loses step before there is lock.
- MediaClockRuns.AnswersOnGrid: for a listener that is also a talker, runs in which it has not freewheeled past the first timestamp before the first packet; a listener that is not may have.
- EdgeRecovery.AlwaysRecovers: for packets of two timestamps or more, of which a burst does not span 2^63 ns; `OneStampSearchesOn` says what one timestamp to a packet changes.
- EdgePairing.StaysInStep: for streams whose edges are within tolerance of their timestamps; `RunKeepsLock` needs no such assumption.
- DefaultLoop.SettlesForever: for the default tuning at 300 Hz, as the rest of `DefaultLoop`, `WideLock` and `StaleLock`; `Measured` to `ClosedLoop` are for that tuning and edge periods within 2000 ppm; other tunings are covered by `ServoLoop` and `SlewRegime`.
- CrfPipeline.Process: the mismatch message printed once a stream is not modelled.
- CrfReceiver: waiting for the first packet with a timeout is modelled as its first accepted packet.
- Codec errors for null pointers and for field codes outside the enumeration, which answer -EINVAL before anything is read.
- The timestamps of a CRF packet after its first: `crf-listener.c` recovers the clock from the first alone.
- The presentation-time gate, prefill and playback of the audio listener, and its sequence-gap log.
- Status strings, banners, pull ratios and sample-rate tables: lookups.
- Sockets, BPF, netlink, mmap, ALSA, I2C, GPIO, timers, signals and argument parsing: their results are parameters of the methods.
- The other clock back ends and hardware helpers (`cs2600.c`, `devmem.c`, `phc-utils.c`, `ptp-extts.c`, `media-clock.c`): register sequences and plumbing.
- The CVF, RVF, VSF and IEC 61883 codecs and the AAF and IEC example programs: the same shape as the codecs and the queue that are modelled.
