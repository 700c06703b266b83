/** The older conductor (Assets/ConductorBK.cs). It keeps two interpolated
    clocks beside the device's discrete play head:
    - the accurate clock never rewinds on a resync; when it is ahead of the
      device it pauses until the lead is used up;
    - the smoothed clock drifts toward the device at a bounded rate and
      snaps to it when it is more than 50 ms off.
    The pure functions below give the next clock state; the class at the end
    holds the fields of the C# component and its methods are proved to update
    them as those functions say. */
module ConductorBK {
  import opened Runtime
  import opened Unity
  import opened Drift

  /** A smoothed-clock error above this magnitude (seconds) is snapped away. */
  const HardResyncThreshold: real := 0.05

  /** A C# double as the clock code can produce it: NaN (the "no clip"
      sentinel) or a number. Arithmetic keeps NaN, comparisons with NaN are
      false. */
  datatype Double = NaN | Num(v: real)

  function Plus(a: Double, d: real): Double
  {
    if a.NaN? then NaN else Num(a.v + d)
  }

  /** The clock fields: the two (static) times, how much each clock still
      has to make up, and the last play-head position seen. The accurate
      make-up is never NaN: it is only ever set from a number. */
  datatype ClockState = ClockState(
    accurate: Double,
    smoothed: Double,
    makeUpAccurate: real,
    makeUpSmoothed: Double,
    lastSamplePosition: int)

  // ---------------------------------------------------------------- accurate

  /** One frame of the accurate clock: run on, or keep pausing while a lead
      is still to be made up. When the pause ends within this frame the
      clock is set to the overshoot alone (not to the old time plus it). */
  function InterpolateAccurate(c: ClockState, dt: real): (r: ClockState)
    ensures r.smoothed == c.smoothed && r.makeUpSmoothed == c.makeUpSmoothed
    ensures r.lastSamplePosition == c.lastSamplePosition
    ensures 0.0 <= dt && c.makeUpAccurate <= 0.0 ==>
              r.accurate == Plus(c.accurate, dt) && r.makeUpAccurate == c.makeUpAccurate
    ensures 0.0 <= dt && dt < c.makeUpAccurate ==>
              r.accurate == c.accurate && r.makeUpAccurate == c.makeUpAccurate - dt
    ensures 0.0 <= dt && 0.0 < c.makeUpAccurate <= dt ==>
              r.accurate == Num(dt - c.makeUpAccurate) && r.makeUpAccurate == 0.0
    ensures 0.0 <= dt && 0.0 <= c.makeUpAccurate ==>
              0.0 <= r.makeUpAccurate <= c.makeUpAccurate
  {
    if c.makeUpAccurate > 0.0 then
      var left := c.makeUpAccurate - dt;
      if left <= 0.0 then c.(accurate := Num(Abs(left)), makeUpAccurate := 0.0)
      else c.(makeUpAccurate := left)
    else
      c.(accurate := Plus(c.accurate, dt))
  }

  /** As written, the frame that ends a pause moves the accurate clock back
      to below one frame length whenever it stood beyond one frame. */
  lemma PauseEndRewinds(c: ClockState, dt: real)
    requires 0.0 < c.makeUpAccurate <= dt
    requires c.accurate.Num? && dt < c.accurate.v
    ensures InterpolateAccurate(c, dt).accurate.Num?
    ensures InterpolateAccurate(c, dt).accurate.v < dt < c.accurate.v
  {
  }

  /** Resync of the accurate clock with the device time `realTime`: the clock
      becomes the later of itself and the device, so it never moves back; when
      it is ahead, the lead is recorded as the pause still to be made up. */
  function SyncAccurate(c: ClockState, realTime: real): (r: ClockState)
    ensures r.smoothed == c.smoothed && r.makeUpSmoothed == c.makeUpSmoothed
    ensures r.lastSamplePosition == c.lastSamplePosition
    ensures r.accurate.Num? && realTime <= r.accurate.v
    ensures c.accurate.Num? ==> r.accurate.v == Max(c.accurate.v, realTime)
    ensures c.accurate.NaN? ==> r.accurate.v == realTime
    ensures r.makeUpAccurate ==
              if r.accurate.v == realTime then c.makeUpAccurate else r.accurate.v - realTime
    ensures 0.0 <= c.makeUpAccurate ==> 0.0 <= r.makeUpAccurate
  {
    if c.accurate.Num? && realTime < c.accurate.v then
      c.(makeUpAccurate := c.accurate.v - realTime)
    else
      c.(accurate := Num(realTime))
  }

  // ---------------------------------------------------------------- smoothed

  /** The correction for a variance that may be NaN (then every comparison
      fails and nothing is corrected). */
  function SmoothedCorrection(variance: Double, dt: real): real
  {
    if variance.NaN? then 0.0 else Correction(variance.v, dt)
  }

  /** One frame of the smoothed clock: it runs on by `dt` and takes over part
      of the variance. What it takes over, the variance loses, so the clock
      plus its variance runs exactly with real time. */
  function InterpolateSmoothed(c: ClockState, dt: real): (r: ClockState)
    ensures r.accurate == c.accurate && r.makeUpAccurate == c.makeUpAccurate
    ensures r.lastSamplePosition == c.lastSamplePosition
    ensures r.smoothed.NaN? <==> c.smoothed.NaN?
    ensures r.makeUpSmoothed.NaN? <==> c.makeUpSmoothed.NaN?
    ensures c.smoothed.Num? && c.makeUpSmoothed.Num? ==>
              r.smoothed.v + r.makeUpSmoothed.v == c.smoothed.v + c.makeUpSmoothed.v + dt
    ensures c.smoothed.Num? ==>
              Abs(r.smoothed.v - (c.smoothed.v + dt)) <= FarDriftSpeed * Abs(dt)
    ensures c.makeUpSmoothed == Num(0.0) ==> r == c.(smoothed := Plus(c.smoothed, dt))
  {
    var correction := SmoothedCorrection(c.makeUpSmoothed, dt);
    c.(smoothed := Plus(Plus(c.smoothed, dt), correction),
       makeUpSmoothed := Plus(c.makeUpSmoothed, -correction))
  }

  /** Resync of the smoothed clock with the device time: the variance becomes
      the device time minus the clock; a variance above 50 ms is removed at
      once by snapping the clock to the device. A NaN clock stays NaN. */
  function SyncSmoothed(c: ClockState, realTime: real): (r: ClockState)
    ensures r.accurate == c.accurate && r.makeUpAccurate == c.makeUpAccurate
    ensures r.lastSamplePosition == c.lastSamplePosition
    ensures c.smoothed.NaN? ==> r == c.(makeUpSmoothed := NaN)
    ensures c.smoothed.Num? ==>
              r.smoothed.Num? && r.makeUpSmoothed.Num? &&
              r.smoothed.v + r.makeUpSmoothed.v == realTime &&
              Abs(r.makeUpSmoothed.v) <= HardResyncThreshold
    ensures c.smoothed.Num? && HardResyncThreshold < Abs(realTime - c.smoothed.v) ==>
              r.smoothed == Num(realTime) && r.makeUpSmoothed == Num(0.0)
    ensures c.smoothed.Num? && Abs(realTime - c.smoothed.v) <= HardResyncThreshold ==>
              r.smoothed == c.smoothed
  {
    var variance := if c.smoothed.NaN? then NaN else Num(realTime - c.smoothed.v);
    if variance.Num? && Abs(variance.v) > HardResyncThreshold then
      c.(smoothed := Num(realTime), makeUpSmoothed := Num(0.0))
    else
      c.(makeUpSmoothed := variance)
  }

  // ---------------------------------------------------------------- frames

  /** What one frame sees of the device: nothing to follow (no source, no
      clip, or not playing), or the play head and the clip's sample rate. */
  datatype DeviceInput = Stopped | Playing(timeSamples: int, frequency: Frequency)

  function SampleTime(samples: int, frequency: Frequency): real
  {
    samples as real / frequency as real
  }

  /** One call of Update. */
  function Step(c: ClockState, dt: real, device: DeviceInput): (r: ClockState)
    ensures device.Stopped? ==> r == c.(accurate := Num(0.0), smoothed := Num(0.0))
    ensures r.lastSamplePosition ==
              if device.Playing? then device.timeSamples else c.lastSamplePosition
  {
    match device
    case Stopped => c.(accurate := Num(0.0), smoothed := Num(0.0))
    case Playing(samples, frequency) =>
      var moved := InterpolateSmoothed(InterpolateAccurate(c, dt), dt);
      if samples == moved.lastSamplePosition then moved
      else
        var realTime := SampleTime(samples, frequency);
        var seen := moved.(lastSamplePosition := samples);
        var started := if samples == 0 then seen.(accurate := Num(realTime), smoothed := Num(realTime))
                       else seen;
        SyncSmoothed(SyncAccurate(started, realTime), realTime)
  }

  /** A playing frame without a new play-head position only interpolates. */
  lemma StepWithoutNewPosition(c: ClockState, dt: real, samples: int, frequency: Frequency)
    requires samples == c.lastSamplePosition
    ensures Step(c, dt, Playing(samples, frequency))
              == InterpolateSmoothed(InterpolateAccurate(c, dt), dt)
  {
  }

  /** A playing frame with a new play-head position resyncs both clocks:
      the accurate clock ends at or after the device time and not below its
      interpolated value, the smoothed clock plus variance equals the device
      time and the variance is within the hard-resync band. */
  lemma StepWithNewPosition(c: ClockState, dt: real, samples: int, frequency: Frequency)
    requires samples != c.lastSamplePosition
    ensures var r := Step(c, dt, Playing(samples, frequency));
            var realTime := SampleTime(samples, frequency);
            var moved := InterpolateAccurate(c, dt);
            r.lastSamplePosition == samples &&
            r.accurate.Num? && realTime <= r.accurate.v &&
            (samples != 0 && moved.accurate.Num? ==> moved.accurate.v <= r.accurate.v) &&
            (samples == 0 || c.smoothed.Num? ==>
               r.smoothed.Num? && r.makeUpSmoothed.Num? &&
               r.smoothed.v + r.makeUpSmoothed.v == realTime &&
               Abs(r.makeUpSmoothed.v) <= HardResyncThreshold)
  {
  }

  /** A new reading of 0 puts both clocks at 0 with no smoothed variance; a
      pause the accurate clock had left is kept. */
  lemma StepZeroReading(c: ClockState, dt: real, frequency: Frequency)
    requires c.lastSamplePosition != 0
    ensures var r := Step(c, dt, Playing(0, frequency));
            r.accurate == Num(0.0) && r.smoothed == Num(0.0) &&
            r.makeUpSmoothed == Num(0.0) && r.lastSamplePosition == 0 &&
            r.makeUpAccurate == InterpolateAccurate(c, dt).makeUpAccurate
  {
  }

  /** A NaN smoothed clock (the device already playing at the first Update,
      before any Play or SetAudioClip) is not repaired by resyncs; only a new
      reading of 0 or a stopped frame clears it. */
  lemma StepKeepsNaNSmoothed(c: ClockState, dt: real, samples: int, frequency: Frequency)
    requires c.smoothed.NaN? && samples != 0
    ensures Step(c, dt, Playing(samples, frequency)).smoothed.NaN?
  {
  }

  /** The bookkeeping every reachable state keeps while frames are short:
      no negative pause, and a numeric smoothed variance within the band. */
  predicate Steady(c: ClockState)
  {
    0.0 <= c.makeUpAccurate &&
    (c.makeUpSmoothed.Num? ==> Abs(c.makeUpSmoothed.v) <= HardResyncThreshold)
  }

  /** A frame is short when its largest correction fits the resync band
      (0.25 s for these constants). */
  predicate ShortFrame(dt: real)
  {
    0.0 <= dt && FarDriftSpeed * dt <= HardResyncThreshold
  }

  lemma StepKeepsSteady(c: ClockState, dt: real, device: DeviceInput)
    requires Steady(c) && ShortFrame(dt)
    ensures Steady(Step(c, dt, device))
  {
    if device.Playing? {
      var moved := InterpolateSmoothed(InterpolateAccurate(c, dt), dt);
      if moved.makeUpSmoothed.Num? {
        CorrectionKeepsBand(c.makeUpSmoothed.v, dt, HardResyncThreshold);
      }
    }
  }

  datatype FrameInput = FrameInput(dt: real, device: DeviceInput)

  /** The state after a sequence of Update calls. */
  function Run(c: ClockState, frames: seq<FrameInput>): ClockState
    decreases |frames|
  {
    if frames == [] then c else Run(Step(c, frames[0].dt, frames[0].device), frames[1..])
  }

  /** Over any sequence of short frames the pause stays non-negative and the
      smoothed variance stays within the hard-resync band. */
  lemma {:induction false} RunKeepsSteady(c: ClockState, frames: seq<FrameInput>)
    requires Steady(c)
    requires forall i :: 0 <= i < |frames| ==> ShortFrame(frames[i].dt)
    ensures Steady(Run(c, frames))
    decreases |frames|
  {
    if frames != [] {
      StepKeepsSteady(c, frames[0].dt, frames[0].device);
      RunKeepsSteady(Step(c, frames[0].dt, frames[0].device), frames[1..]);
    }
  }

  /** The frame time of a sequence of frames. */
  function Elapsed(frames: seq<FrameInput>): real
    decreases |frames|
  {
    if frames == [] then 0.0 else frames[0].dt + Elapsed(frames[1..])
  }

  lemma {:induction false} ElapsedNonNegative(frames: seq<FrameInput>)
    requires forall i :: 0 <= i < |frames| ==> 0.0 <= frames[i].dt
    ensures 0.0 <= Elapsed(frames)
    decreases |frames|
  {
    if frames != [] {
      forall i | 0 <= i < |frames[1..]|
        ensures 0.0 <= frames[1..][i].dt
      {
        assert frames[1..][i] == frames[i + 1];
      }
      ElapsedNonNegative(frames[1..]);
    }
  }

  /** While the device plays on without a new play-head position, with frames
      of at most `longest` seconds, a numeric smoothed variance loses at least
      the close speed times the elapsed time until it is within 0.2 times the
      longest frame, and stays within that after. In general it does not
      settle on 0 but can cycle around it (`CorrectionCycles`); it stays at 0
      only once it lands there exactly (`CorrectionLandsOnZero`), as after a
      hard resync. */
  lemma {:induction false} RunWithoutNewPositionApproaches(c: ClockState, frames: seq<FrameInput>,
                                                           bound: real, longest: real)
    requires c.makeUpSmoothed.Num? && Abs(c.makeUpSmoothed.v) <= bound
    requires forall i :: 0 <= i < |frames| ==>
               frames[i].device.Playing? && frames[i].device.timeSamples == c.lastSamplePosition &&
               0.0 <= frames[i].dt <= longest
    ensures var r := Run(c, frames);
            r.makeUpSmoothed.Num? &&
            Abs(r.makeUpSmoothed.v) <= Max(bound - CloseDriftSpeed * Elapsed(frames), FarDriftSpeed * longest)
    decreases |frames|
  {
    if frames == [] {
    } else {
      var f := frames[0];
      var next := Step(c, f.dt, f.device);
      StepWithoutNewPosition(c, f.dt, f.device.timeSamples, f.device.frequency);
      CorrectionApproaches(c.makeUpSmoothed.v, f.dt, bound, longest);
      var nextBound := Max(bound - CloseDriftSpeed * f.dt, FarDriftSpeed * longest);
      forall i | 0 <= i < |frames[1..]|
        ensures frames[1..][i].device.Playing? &&
                frames[1..][i].device.timeSamples == next.lastSamplePosition &&
                0.0 <= frames[1..][i].dt <= longest
      {
        assert frames[1..][i] == frames[i + 1];
      }
      RunWithoutNewPositionApproaches(next, frames[1..], nextBound, longest);
      ElapsedNonNegative(frames[1..]);
    }
  }

  // ---------------------------------------------------------------- seeking

  /** C#'s (int) cast of a number: truncation toward zero. */
  function Trunc(x: real): (n: int)
    ensures 0.0 <= x ==> 0 <= n && n as real <= x < n as real + 1.0
    ensures x < 0.0 ==> n <= 0 && n as real - 1.0 < x <= n as real
  {
    if x >= 0.0 then x.Floor else -((-x).Floor)
  }

  /** The play-head position a seek to `time` sets. */
  function SampleIndex(time: real, frequency: Frequency): int
  {
    Trunc(time * frequency as real)
  }

  /** The clock state a seek to sample `samples` leaves: both clocks at the
      time of that sample, nothing to make up. */
  function Overridden(samples: int, frequency: Frequency): (c: ClockState)
    ensures Steady(c)
    ensures c.accurate == c.smoothed == Num(SampleTime(samples, frequency))
    ensures c.lastSamplePosition == samples
    ensures c.makeUpAccurate == 0.0 && c.makeUpSmoothed == Num(0.0)
  {
    var actual := SampleTime(samples, frequency);
    ClockState(Num(actual), Num(actual), 0.0, Num(0.0), samples)
  }

  /** A seek to a non-negative time lands on the last sample at or before
      it: at most one sample period early, never late. */
  lemma SeekLandsOnSample(time: real, frequency: Frequency)
    requires 0.0 <= time
    ensures var actual := SampleTime(SampleIndex(time, frequency), frequency);
            0.0 <= actual <= time < actual + 1.0 / frequency as real
  {
    var f := frequency as real;
    var n := SampleIndex(time, frequency);
    assert n as real <= time * f < n as real + 1.0;
    assert n as real / f <= time by {
      assert (n as real / f) * f == n as real;
    }
    assert time < n as real / f + 1.0 / f by {
      assert (n as real / f + 1.0 / f) * f == n as real + 1.0;
    }
  }

  /** A seek to a negative time truncates toward zero: it lands at most one
      sample period late, never early. */
  lemma SeekBeforeStart(time: real, frequency: Frequency)
    requires time < 0.0
    ensures var actual := SampleTime(SampleIndex(time, frequency), frequency);
            actual - 1.0 / frequency as real < time <= actual <= 0.0
  {
    var f := frequency as real;
    var n := SampleIndex(time, frequency);
    assert n as real - 1.0 < time * f <= n as real;
    assert time <= n as real / f by {
      assert (n as real / f) * f == n as real;
    }
    assert n as real / f - 1.0 / f < time by {
      assert (n as real / f - 1.0 / f) * f == n as real - 1.0;
    }
  }

  /** Seeking to the time a seek landed on lands on the same sample, so it
      leaves the same clock state. */
  lemma SeekIdempotent(time: real, frequency: Frequency)
    ensures var n := SampleIndex(time, frequency);
            SampleIndex(SampleTime(n, frequency), frequency) == n &&
            Overridden(SampleIndex(SampleTime(n, frequency), frequency), frequency)
              == Overridden(n, frequency)
  {
    var f := frequency as real;
    var n := SampleIndex(time, frequency);
    assert (n as real / f) * f == n as real;
  }

  // ---------------------------------------------------------------- component

  /** The MonoBehaviour. `accurateTime`, `smoothedTime` and `audioLatency`
      are static in the source; one instance is modelled. `source` is what
      Start obtains from GetComponent. */
  class ConductorBK {
    var accurateTime: Double
    var smoothedTime: Double
    var audioLatency: real
    var source: AudioSource?
    var lastSamplePosition: int
    var timeToMakeUpAccurate: real
    var timeToMakeUpSmoothed: Double

    function State(): ClockState
      reads this
    {
      ClockState(accurateTime, smoothedTime, timeToMakeUpAccurate,
                 timeToMakeUpSmoothed, lastSamplePosition)
    }

    /** What Update reads from the device this frame. */
    function Device(): DeviceInput
      reads this, source
    {
      if source == null || source.clip.None? || !source.isPlaying then Stopped
      else Playing(source.timeSamples, source.clip.value.frequency)
    }

    /** The static initialisers (both times NaN) and the wiring of Start. */
    constructor (source: AudioSource?)
      ensures State() == ClockState(NaN, NaN, 0.0, Num(0.0), 0)
      ensures this.source == source && audioLatency == 0.0
    {
      accurateTime := NaN;
      smoothedTime := NaN;
      audioLatency := 0.0;
      this.source := source;
      lastSamplePosition := 0;
      timeToMakeUpAccurate := 0.0;
      timeToMakeUpSmoothed := Num(0.0);
    }

    /** The public AccurateTime: the accurate clock less the latency. */
    function AccurateTime(): (t: Double)
      reads this
      ensures t.NaN? <==> accurateTime.NaN?
      ensures Plus(t, audioLatency) == accurateTime
    {
      Plus(accurateTime, -audioLatency)
    }

    /** The public SmoothedTime: the smoothed clock less the latency. */
    function SmoothedTime(): (t: Double)
      reads this
      ensures t.NaN? <==> smoothedTime.NaN?
      ensures Plus(t, audioLatency) == smoothedTime
    {
      Plus(smoothedTime, -audioLatency)
    }

    method Update(dt: real)
      modifies this`accurateTime, this`smoothedTime, this`lastSamplePosition,
               this`timeToMakeUpAccurate, this`timeToMakeUpSmoothed
      ensures State() == Step(old(State()), dt, Device())
    {
      if source == null || source.clip.None? || !source.isPlaying {
        accurateTime := Num(0.0);
        smoothedTime := Num(0.0);
        return;
      }

      InterpolateAccurateTime(dt);
      InterpolateSmoothedTime(dt);

      if source.timeSamples != lastSamplePosition {
        var realTime := SampleTime(source.timeSamples, source.clip.value.frequency);
        lastSamplePosition := source.timeSamples;

        if lastSamplePosition == 0 {
          accurateTime := Num(realTime);
          smoothedTime := Num(realTime);
        }

        SyncAccurateTime(realTime);
        SyncSmoothedTime(realTime);
      }
    }

    method InterpolateAccurateTime(dt: real)
      modifies this`accurateTime, this`timeToMakeUpAccurate
      ensures State() == InterpolateAccurate(old(State()), dt)
    {
      if timeToMakeUpAccurate > 0.0 {
        timeToMakeUpAccurate := timeToMakeUpAccurate - dt;
        if timeToMakeUpAccurate <= 0.0 {
          accurateTime := Num(Abs(timeToMakeUpAccurate));
          timeToMakeUpAccurate := 0.0;
        }
      } else {
        accurateTime := Plus(accurateTime, dt);
      }
    }

    method InterpolateSmoothedTime(dt: real)
      modifies this`smoothedTime, this`timeToMakeUpSmoothed
      ensures State() == InterpolateSmoothed(old(State()), dt)
    {
      smoothedTime := Plus(smoothedTime, dt);
      var correction := SmoothedCorrection(timeToMakeUpSmoothed, dt);
      timeToMakeUpSmoothed := Plus(timeToMakeUpSmoothed, -correction);
      smoothedTime := Plus(smoothedTime, correction);
    }

    method SyncAccurateTime(realTime: real)
      modifies this`accurateTime, this`timeToMakeUpAccurate
      ensures State() == SyncAccurate(old(State()), realTime)
    {
      if accurateTime.Num? && realTime < accurateTime.v {
        timeToMakeUpAccurate := accurateTime.v - realTime;
      } else {
        accurateTime := Num(realTime);
      }
    }

    method SyncSmoothedTime(realTime: real)
      modifies this`smoothedTime, this`timeToMakeUpSmoothed
      ensures State() == SyncSmoothed(old(State()), realTime)
    {
      timeToMakeUpSmoothed := if smoothedTime.NaN? then NaN else Num(realTime - smoothedTime.v);
      if timeToMakeUpSmoothed.Num? && Abs(timeToMakeUpSmoothed.v) > HardResyncThreshold {
        smoothedTime := Num(realTime);
        timeToMakeUpSmoothed := Num(0.0);
      }
    }

    /** Seeks the device to `time` and restarts both clocks from the time of
      the sample it actually landed on. */
    method OverridePlaybackTime(time: real)
      requires source != null && source.clip.Some?
      modifies source`timeSamples,
               this`accurateTime, this`smoothedTime, this`lastSamplePosition,
               this`timeToMakeUpAccurate, this`timeToMakeUpSmoothed
      ensures source.timeSamples == SampleIndex(time, source.clip.value.frequency)
      ensures State() == Overridden(source.timeSamples, source.clip.value.frequency)
    {
      var frequency := source.clip.value.frequency;
      source.timeSamples := SampleIndex(time, frequency);
      var actualTime := SampleTime(source.timeSamples, frequency);

      accurateTime := Num(actualTime);
      smoothedTime := Num(actualTime);
      timeToMakeUpAccurate := 0.0;
      timeToMakeUpSmoothed := Num(0.0);
      lastSamplePosition := source.timeSamples;
    }

    /** Loads a clip (None stands for null) and rewinds everything to 0.
      Without a source, or with a null clip, the call throws; a null clip is
      stored before the throw. */
    method SetAudioClip(clip: Option<AudioClip>) returns (outcome: Outcome)
      modifies source,
               this`accurateTime, this`smoothedTime, this`lastSamplePosition,
               this`timeToMakeUpAccurate, this`timeToMakeUpSmoothed
      ensures source == null ==> outcome == Threw(NullReference) && State() == old(State())
      ensures source != null ==>
                source.clip == clip && source.isPlaying == old(source.isPlaying) &&
                source.time == old(source.time)
      ensures source != null && clip.None? ==>
                outcome == Threw(NullReference) && State() == old(State()) &&
                source.timeSamples == old(source.timeSamples)
      ensures source != null && clip.Some? ==>
                outcome == Completed && source.timeSamples == 0 &&
                State() == ClockState(Num(0.0), Num(0.0), 0.0, Num(0.0), 0)
    {
      if source == null {
        return Threw(NullReference);
      }
      source.clip := clip;
      if clip.None? {
        return Threw(NullReference);
      }
      OverridePlaybackTime(0.0);
      return Completed;
    }

    /** Clears the clip and sets both clocks to the NaN sentinel; nothing
      else changes. Without a source the call throws. */
    method UnloadAudioClip() returns (outcome: Outcome)
      modifies source, this`accurateTime, this`smoothedTime
      ensures source == null ==> outcome == Threw(NullReference) && State() == old(State())
      ensures source != null ==>
                outcome == Completed && source.clip == None &&
                source.isPlaying == old(source.isPlaying) &&
                source.timeSamples == old(source.timeSamples) && source.time == old(source.time) &&
                State() == old(State()).(accurate := NaN, smoothed := NaN)
    {
      if source == null {
        return Threw(NullReference);
      }
      source.clip := None;
      accurateTime := NaN;
      smoothedTime := NaN;
      return Completed;
    }

    /** Seeks to `time` and starts the device. Without a source or a clip the
      seek throws before anything changes. */
    method Play(time: real := 0.0) returns (outcome: Outcome)
      modifies source,
               this`accurateTime, this`smoothedTime, this`lastSamplePosition,
               this`timeToMakeUpAccurate, this`timeToMakeUpSmoothed
      ensures source == null || source.clip.None? ==>
                outcome == Threw(NullReference) && State() == old(State())
      ensures source != null ==> source.clip == old(source.clip) && source.time == old(source.time)
      ensures source != null && source.clip.None? ==>
                source.isPlaying == old(source.isPlaying) &&
                source.timeSamples == old(source.timeSamples)
      ensures source != null && source.clip.Some? ==>
                outcome == Completed && source.isPlaying &&
                source.timeSamples == SampleIndex(time, source.clip.value.frequency) &&
                State() == Overridden(source.timeSamples, source.clip.value.frequency)
    {
      if source == null || source.clip.None? {
        return Threw(NullReference);
      }
      OverridePlaybackTime(time);
      source.Play();
      return Completed;
    }
  }
}
