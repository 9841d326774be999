/**
 The PI servo of the media-clock listener: a frequency acquisition window, then
 phase tracking with a slewing regime for large errors and a PI branch for small
 ones.  `double` is modelled by `real`.

 `Step` is the servo's transition function on values.  The class `Servo` is the
 object whose fields the source updates in place; its `Sample` method is proved
 to perform exactly one `Step`.  What the servo promises over whole runs is
 proved about `Step`.
 */
module PiServo {
  import opened Reals
  import opened Words

  const NSEC_PER_SEC := 1_000_000_000.0

  // The acquisition window is compared after being lengthened by this fraction.
  const FREQ_EST_MARGIN := 0.001

  datatype Config = Config(
    kp: real,
    ki: real,
    kiFast: real,
    fastKiSamples: nat,
    slewKp: real,
    slewThresh: int,
    maxPpb: real,
    stepThreshold: real,
    freqEstInterval: real)

  const DEFAULTS := Config(0.4, 0.00005, 0.0003, 3000, 2.0, 500, 2_000_000.0, 100_000_000.0, 2.0)

  datatype Report = Unlocked | Jump | Locked

  // The values of the switch on `count`.
  datatype Phase = Idle | Acquiring | Tracking

  datatype State = State(
    offset0: real,
    offset1: real,
    local0: nat,
    local1: nat,
    drift: real,
    lastFreq: real,
    phase: Phase,
    trackingSamples: nat)

  datatype Outcome = Outcome(next: State, ppb: real, report: Report)

  // A freshly allocated servo is all zeroes.
  const ZERO := State(0.0, 0.0, 0, 0, 0.0, 0.0, Idle, 0)

  predicate Creatable(c: Config) {
    c.maxPpb > 0.0 && c.freqEstInterval > 0.0
  }

  // What a caller must supply for the run-time guarantees below: a positive
  // clamp, and gains that push against the phase error rather than along it.
  predicate WellTuned(c: Config) {
    Creatable(c) && c.kp >= 0.0 && c.ki >= 0.0 && c.kiFast >= 0.0
  }

  predicate IsStep(c: Config, offset: real) {
    c.stepThreshold != 0.0 && c.stepThreshold < Abs(offset)
  }

  predicate IsLarge(c: Config, offset: real) {
    Abs(offset) > c.slewThresh as real
  }

  // The integral gain in force for the next sample of the PI branch.
  function GainAt(c: Config, samples: nat): real {
    if samples < c.fastKiSamples then c.kiFast else c.ki
  }

  function ActiveKi(c: Config, s: State): real {
    GainAt(c, s.trackingSamples)
  }

  function SlewPpb(slewKp: real, drift: real, offset: real): real {
    slewKp * offset + drift
  }

  function PiPpb(kp: real, ki: real, drift: real, offset: real): real {
    kp * offset + drift + ki * offset
  }

  function Integrated(ki: real, drift: real, offset: real): real {
    drift + ki * offset
  }

  // The correction the tracking phase asks for, before it is clamped.
  function RawPpb(c: Config, s: State, offset: real): real {
    if IsLarge(c, offset) then SlewPpb(c.slewKp, s.drift, offset)
    else PiPpb(c.kp, ActiveKi(c, s), s.drift, offset)
  }

  predicate Clamped(c: Config, s: State, offset: real) {
    RawPpb(c, s, offset) < -c.maxPpb || RawPpb(c, s, offset) > c.maxPpb
  }

  // Length of the acquisition window in seconds, margin included.
  function Window(l0: nat, l1: nat): real {
    var seconds := (l1 - l0) as real / NSEC_PER_SEC;
    seconds + seconds * FREQ_EST_MARGIN
  }

  // The drift estimate that the slope over an acquisition window gives.
  function Acquired(drift: real, o0: real, o1: real, l0: nat, l1: nat): real
    requires l0 < l1
  {
    drift + (NSEC_PER_SEC - drift) * (o1 - o0) / (l1 - l0) as real
  }

  function Step(c: Config, s: State, offset: real, local: nat): Outcome {
    match s.phase
    case Idle =>
      Outcome(s.(offset0 := offset, local0 := local, phase := Acquiring), s.lastFreq, Unlocked)
    case Acquiring =>
      var s1 := s.(offset1 := offset, local1 := local);
      if s1.local0 >= s1.local1 then
        Outcome(s1.(phase := Idle), s.lastFreq, Unlocked)
      else if Window(s1.local0, s1.local1) < c.freqEstInterval then
        Outcome(s1, s.lastFreq, Unlocked)
      else
        var drift := Clamp(Acquired(s.drift, s1.offset0, s1.offset1, s1.local0, s1.local1), c.maxPpb);
        Outcome(s1.(drift := drift, lastFreq := drift, phase := Tracking), drift, Locked)
    case Tracking =>
      if IsStep(c, offset) then
        Outcome(s.(phase := Idle), s.lastFreq, Unlocked)
      else
        var ppb := Clamp(RawPpb(c, s, offset), c.maxPpb);
        var samples := if IsLarge(c, offset) then 0 else (s.trackingSamples + 1) % U32;
        var drift :=
          if Clamped(c, s, offset) || IsLarge(c, offset) then s.drift
          else Integrated(ActiveKi(c, s), s.drift, offset);
        Outcome(s.(drift := drift, lastFreq := ppb, trackingSamples := samples), ppb, Locked)
  }

  function Reset(s: State): State {
    s.(phase := Idle)
  }

  /** The servo object.  Phase errors are 64-bit integers in nanoseconds. */
  class Servo {
    const cfg: Config
    var offset0: int
    var offset1: int
    var local0: nat
    var local1: nat
    var drift: real
    var lastFreq: real
    var phase: Phase
    var trackingSamples: nat

    function View(): State
      reads this
    {
      State(offset0 as real, offset1 as real, local0, local1, drift, lastFreq, phase, trackingSamples)
    }

    constructor (c: Config)
      requires Creatable(c)
      ensures cfg == c && View() == ZERO
    {
      cfg := c;
      offset0, offset1, local0, local1 := 0, 0, 0, 0;
      drift, lastFreq, phase, trackingSamples := 0.0, 0.0, Idle, 0;
    }

    method Sample(offset: int, local: nat) returns (ppb: real, report: Report)
      modifies this
      ensures Outcome(View(), ppb, report) == Step(cfg, old(View()), offset as real, local)
    {
      match phase {
        case Idle =>
          offset0 := offset;
          local0 := local;
          phase := Acquiring;
          ppb, report := lastFreq, Unlocked;
        case Acquiring =>
          ppb, report := SampleAcquiring(offset, local);
        case Tracking =>
          ppb, report := SampleTracking(offset, local);
      }
    }

    // The second case of the source's switch.
    method SampleAcquiring(offset: int, local: nat) returns (ppb: real, report: Report)
      requires phase == Acquiring
      modifies this
      ensures Outcome(View(), ppb, report) == Step(cfg, old(View()), offset as real, local)
    {
      ppb, report := lastFreq, Unlocked;
      offset1 := offset;
      local1 := local;
      if local0 >= local1 {
        phase := Idle;
        return;
      }

      if Window(local0, local1) < cfg.freqEstInterval {
        return;
      }

      drift := Acquired(drift, offset0 as real, offset1 as real, local0, local1);
      if drift < -cfg.maxPpb {
        drift := -cfg.maxPpb;
      } else if drift > cfg.maxPpb {
        drift := cfg.maxPpb;
      }
      ppb, report := drift, Locked;
      lastFreq := ppb;
      phase := Tracking;
    }

    // The third case of the source's switch.
    method SampleTracking(offset: int, local: nat) returns (ppb: real, report: Report)
      requires phase == Tracking
      modifies this
      ensures Outcome(View(), ppb, report) == Step(cfg, old(View()), offset as real, local)
    {
      var magnitude := if offset < 0 then -offset else offset;
      assert magnitude as real == Abs(offset as real);
      assert magnitude > cfg.slewThresh <==> IsLarge(cfg, offset as real);

      if cfg.stepThreshold != 0.0 && cfg.stepThreshold < magnitude as real {
        phase := Idle;
        return lastFreq, Unlocked;
      }

      var kiTerm := 0.0;
      if magnitude > cfg.slewThresh {
        ppb := SlewPpb(cfg.slewKp, drift, offset as real);
        trackingSamples := 0;
      } else {
        var kiActive := GainAt(cfg, trackingSamples);
        kiTerm := kiActive * offset as real;
        ppb := cfg.kp * offset as real + drift + kiTerm;
        trackingSamples := (trackingSamples + 1) % U32;
      }
      assert ppb == RawPpb(cfg, old(View()), offset as real);

      if ppb < -cfg.maxPpb {
        ppb := -cfg.maxPpb;
      } else if ppb > cfg.maxPpb {
        ppb := cfg.maxPpb;
      } else if magnitude <= cfg.slewThresh {
        drift := drift + kiTerm;
      }
      report := Locked;
      lastFreq := ppb;
    }

    method ResetServo()
      modifies this
      ensures View() == Reset(old(View()))
    {
      phase := Idle;
    }
  }

  // ---- What every run keeps -------------------------------------------------

  // Anything a caller can do to the servo.
  datatype Event = Sampled(offset: real, local: nat) | WasReset

  function Advance(c: Config, s: State, e: Event): State {
    match e
    case Sampled(offset, local) => Step(c, s, offset, local).next
    case WasReset => Reset(s)
  }

  function Run(c: Config, s: State, events: seq<Event>): State
    decreases |events|
  {
    if events == [] then s
    else Advance(c, Run(c, s, events[..|events| - 1]), events[|events| - 1])
  }

  predicate Within(c: Config, s: State) {
    Abs(s.drift) <= c.maxPpb && Abs(s.lastFreq) <= c.maxPpb
  }

  // In the PI branch the integral moves the drift towards a correction that was
  // inside the clamp, so the drift cannot leave the clamp.
  lemma PiKeepsDrift(c: Config, s: State, offset: real)
    requires WellTuned(c) && Within(c, s)
    requires !IsLarge(c, offset) && !Clamped(c, s, offset)
    ensures Abs(Integrated(ActiveKi(c, s), s.drift, offset)) <= c.maxPpb
  {
    hide PiPpb, Integrated;
    ClampedIntegral(c.kp, ActiveKi(c, s), offset, s.drift, c.maxPpb);
  }

  lemma ClampedIntegral(kp: real, k: real, offset: real, drift: real, bound: real)
    requires kp >= 0.0 && k >= 0.0
    requires Abs(drift) <= bound
    requires Abs(PiPpb(kp, k, drift, offset)) <= bound
    ensures Abs(Integrated(k, drift, offset)) <= bound
  {
    var prop, integral := kp * offset, k * offset;
    if offset >= 0.0 {
      assert prop >= 0.0 && integral >= 0.0;
    } else {
      assert prop <= 0.0 && integral <= 0.0;
    }
  }

  // One call: what is returned and what is stored stay inside the clamp, and
  // LOCKED is reported exactly when the servo ends the call tracking.
  lemma StepWithin(c: Config, s: State, offset: real, local: nat)
    requires WellTuned(c) && Within(c, s)
    ensures var o := Step(c, s, offset, local);
      && Within(c, o.next)
      && Abs(o.ppb) <= c.maxPpb
      && o.ppb == o.next.lastFreq
      && (o.report == Locked <==> o.next.phase == Tracking)
      && o.report != Jump
  {
    hide SlewPpb, PiPpb, Integrated, Acquired, Clamp;
    match s.phase
    case Idle =>
    case Acquiring =>
      if s.local0 < local {
        ClampWithin(Acquired(s.drift, s.offset0, offset, s.local0, local), c.maxPpb);
      }
    case Tracking =>
      ClampWithin(RawPpb(c, s, offset), c.maxPpb);
      if !IsLarge(c, offset) && !Clamped(c, s, offset) {
        PiKeepsDrift(c, s, offset);
      }
  }

  lemma {:induction false} RunWithin(c: Config, events: seq<Event>)
    requires WellTuned(c)
    ensures Within(c, Run(c, ZERO, events))
    decreases |events|
  {
    if events != [] {
      var before := events[..|events| - 1];
      RunWithin(c, before);
      match events[|events| - 1]
      case Sampled(offset, local) => StepWithin(c, Run(c, ZERO, before), offset, local);
      case WasReset =>
    }
  }

  // For every sequence of samples and resets since creation, the next sample
  // returns a correction inside the clamp and reports LOCKED exactly when it
  // leaves the servo tracking.
  lemma EveryCorrectionWithin(c: Config, events: seq<Event>, offset: real, local: nat)
    requires WellTuned(c)
    ensures var o := Step(c, Run(c, ZERO, events), offset, local);
      && Abs(o.ppb) <= c.maxPpb
      && Abs(o.next.drift) <= c.maxPpb
      && (o.report == Locked <==> o.next.phase == Tracking)
  {
    RunWithin(c, events);
    StepWithin(c, Run(c, ZERO, events), offset, local);
  }

  // Samples a caller lets through only when they are inside its own tolerance.
  predicate Filtered(events: seq<Event>, tolerance: real) {
    forall i :: 0 <= i < |events| ==> events[i].Sampled? && Abs(events[i].offset) <= tolerance
  }

  // A tolerance that never exceeds the step threshold makes lock permanent.
  lemma {:induction false} LockIsPermanent(c: Config, s: State, events: seq<Event>, tolerance: real)
    requires s.phase == Tracking
    requires Filtered(events, tolerance)
    requires c.stepThreshold == 0.0 || tolerance <= c.stepThreshold
    ensures Run(c, s, events).phase == Tracking
    decreases |events|
  {
    if events != [] {
      var before := events[..|events| - 1];
      assert Filtered(before, tolerance);
      LockIsPermanent(c, s, before, tolerance);
      assert !IsStep(c, events[|events| - 1].offset);
    }
  }

  // The converse: a single tracked sample beyond a non-zero step threshold
  // always drops the lock and leaves the drift estimate alone.
  lemma StepDropsLock(c: Config, s: State, offset: real, local: nat)
    requires s.phase == Tracking
    ensures Step(c, s, offset, local).report == Unlocked <==> IsStep(c, offset)
    ensures c == DEFAULTS ==> (IsStep(c, offset) <==> Abs(offset) > 100_000_000.0)
    ensures IsStep(c, offset) ==>
      Step(c, s, offset, local).next == s.(phase := Idle)
  {
  }

  // Until it locks, and when it loses the lock, the servo answers with the last correction
  // in force and leaves the drift estimate alone.
  lemma UnlockedHolds(c: Config, s: State, offset: real, local: nat)
    ensures var o := Step(c, s, offset, local);
      o.report == Unlocked ==>
        o.ppb == s.lastFreq == o.next.lastFreq && o.next.drift == s.drift && o.next.phase != Tracking
  {
  }

  // When a sample completes an acquisition: its clock has advanced since the first one by
  // the interval asked for, less one part in 1001; a clock that has not advanced starts over.
  lemma AcquiresIff(c: Config, s: State, offset: real, local: nat)
    requires s.phase == Acquiring
    ensures var next := Step(c, s, offset, local).next;
      && (next.phase == Idle <==> local <= s.local0)
      && (next.phase == Tracking <==>
            s.local0 < local && 1.001 * (local - s.local0) as real >= c.freqEstInterval * 1_000_000_000.0)
  {
    WindowIs(s.local0, local);
    hide Acquired, Clamp, Window;
  }

  lemma WindowIs(l0: nat, l1: nat)
    ensures Window(l0, l1) * 1_000_000_000.0 == 1.001 * (l1 - l0) as real
  {
    var seconds := (l1 - l0) as real / NSEC_PER_SEC;
    assert seconds * NSEC_PER_SEC == (l1 - l0) as real;
  }

  // ---- No wind-up -----------------------------------------------------------

  // A tracked sample that the servo cannot answer in full, whichever integral gain is in
  // force: it is in the slewing regime, or the PI correction is outside the clamp.
  predicate Saturating(c: Config, drift: real, offset: real) {
    && !IsStep(c, offset)
    && (Abs(offset) > c.slewThresh as real
        || (Abs(c.kp * offset + drift + c.ki * offset) > c.maxPpb
            && Abs(c.kp * offset + drift + c.kiFast * offset) > c.maxPpb))
  }

  predicate AllSaturating(c: Config, drift: real, events: seq<Event>) {
    forall i :: 0 <= i < |events| ==> events[i].Sampled? && Saturating(c, drift, events[i].offset)
  }

  // However many such samples there are, they do not move the drift estimate, and the
  // servo keeps tracking.
  lemma {:induction false} NoWindup(c: Config, s: State, events: seq<Event>)
    requires Creatable(c) && s.phase == Tracking && AllSaturating(c, s.drift, events)
    ensures var t := Run(c, s, events); t.drift == s.drift && t.phase == Tracking
    decreases |events|
  {
    if events != [] {
      var before := events[..|events| - 1];
      assert AllSaturating(c, s.drift, before);
      NoWindup(c, s, before);
      SaturatedStep(c, Run(c, s, before), events[|events| - 1].offset, events[|events| - 1].local);
    }
  }

  lemma SaturatedStep(c: Config, s: State, offset: real, local: nat)
    requires Creatable(c) && s.phase == Tracking && Saturating(c, s.drift, offset)
    ensures var o := Step(c, s, offset, local);
      o.next.drift == s.drift && o.next.phase == Tracking && o.report == Locked
  {
  }

  // Any other tracked sample is answered in full, and integrated at the gain in force: the
  // fast one for the first samples after lock or after slewing.
  lemma UnsaturatedStep(c: Config, s: State, offset: real, local: nat)
    requires s.phase == Tracking && !IsStep(c, offset) && Abs(offset) <= c.slewThresh as real
    ensures var gain := if s.trackingSamples < c.fastKiSamples then c.kiFast else c.ki;
      var o := Step(c, s, offset, local);
      Abs(c.kp * offset + s.drift + gain * offset) <= c.maxPpb ==>
        o.ppb == c.kp * offset + o.next.drift && o.next.drift - s.drift == gain * offset
  {
    var gain := if s.trackingSamples < c.fastKiSamples then c.kiFast else c.ki;
    var prop, integral := c.kp * offset, gain * offset;
    assert RawPpb(c, s, offset) == prop + s.drift + integral;
    assert Integrated(ActiveKi(c, s), s.drift, offset) == s.drift + integral;
    hide RawPpb, Integrated, ActiveKi;
  }

  // ---- Reset ----------------------------------------------------------------

  // A reset makes the servo acquire again, but not from scratch: over a window in which
  // the phase error does not move, it comes back to the drift estimate that it had.
  lemma ResetKeepsEstimate(c: Config, s: State, offset: real, l0: nat, l1: nat)
    requires Within(c, s) && l0 < l1 && Window(l0, l1) >= c.freqEstInterval
    ensures Reset(s) == s.(phase := Idle)
    ensures var o := Step(c, Step(c, Reset(s), offset, l0).next, offset, l1);
      o.report == Locked && o.ppb == s.drift && o.next.drift == s.drift
  {
    assert (NSEC_PER_SEC - s.drift) * (offset - offset) / (l1 - l0) as real == 0.0;
    assert Acquired(s.drift, offset, offset, l0, l1) == s.drift;
    hide Acquired, Window;
  }
}
