/** The current conductor (Assets/Scripts/Conductor.cs, namespace
    TimeKeeping). It keeps only the smoothed clock: every frame the clock
    runs on and drifts toward the recorded variance; on each new, non-zero
    play-head position the variance is recomputed, and a variance above
    30 ms is snapped away. A play head of 0 is ignored, because the device
    reports 0 again when the clip ends. */
module TimeKeeping {
  import opened Runtime
  import opened Unity
  import opened Drift

  /** A variance above this magnitude (seconds) is snapped away. */
  const HardResyncThreshold: real := 0.03

  /** The clock fields: `_smoothedTime`, `_variance`, `_lastSamplePosition`. */
  datatype ClockState = ClockState(smoothed: real, variance: real, lastSamplePosition: int)

  /** One frame of the smoothed clock. The clock gains what the variance
      loses, so clock plus variance runs exactly with real time, and the
      clock never strays from real time by more than the far drift speed. */
  function InterpolateSmoothed(c: ClockState, dt: real): (r: ClockState)
    ensures r.lastSamplePosition == c.lastSamplePosition
    ensures r.smoothed + r.variance == c.smoothed + c.variance + dt
    ensures Abs(r.smoothed - (c.smoothed + dt)) <= FarDriftSpeed * Abs(dt)
    ensures 0.0 <= dt && 0.0 < c.variance ==> c.smoothed + dt <= r.smoothed
    ensures 0.0 <= dt && c.variance < 0.0 ==> r.smoothed <= c.smoothed + dt
    ensures c.variance == 0.0 ==> r.smoothed == c.smoothed + dt && r.variance == 0.0
  {
    var correction := Correction(c.variance, dt);
    c.(smoothed := c.smoothed + dt + correction, variance := c.variance - correction)
  }

  /** Resync with the device time `realTime`: the variance becomes the device
      time minus the clock; one above 30 ms is removed by snapping the clock
      to the device, otherwise the clock is left where it is. */
  function SyncSmoothed(c: ClockState, realTime: real): (r: ClockState)
    ensures r.lastSamplePosition == c.lastSamplePosition
    ensures r.smoothed + r.variance == realTime
    ensures Abs(r.variance) <= HardResyncThreshold
    ensures HardResyncThreshold < Abs(realTime - c.smoothed) ==>
              r.smoothed == realTime && r.variance == 0.0
    ensures Abs(realTime - c.smoothed) <= HardResyncThreshold ==> r.smoothed == c.smoothed
  {
    var variance := realTime - c.smoothed;
    if Abs(variance) > HardResyncThreshold then c.(smoothed := realTime, variance := 0.0)
    else c.(variance := variance)
  }

  /** What one frame reads from the device: nothing (no source or no clip),
      or the play head in samples, the clip's sample rate and the play head
      in seconds. Whether the device is playing is not consulted. */
  datatype DeviceReading = NoClip | Reading(timeSamples: int, frequency: Frequency, time: real)

  /** A play-head position is taken as a tick only when it is new and not 0. */
  predicate Accepts(c: ClockState, timeSamples: int)
  {
    timeSamples != c.lastSamplePosition && timeSamples != 0
  }

  /** The clock plus the two public outputs SmoothedTime and UnSmoothedTime. */
  datatype ConductorState = ConductorState(clock: ClockState, smoothedTime: real, unSmoothedTime: real)

  /** One call of Update, with the latency then configured. */
  function Step(s: ConductorState, dt: real, latency: real, reading: DeviceReading): (r: ConductorState)
    ensures reading.NoClip? ==>
              r == s.(clock := s.clock.(smoothed := 0.0), unSmoothedTime := 0.0)
    ensures reading.Reading? ==>
              r.smoothedTime == r.clock.smoothed - latency &&
              r.unSmoothedTime == reading.time - latency
    ensures r.clock.lastSamplePosition ==
              if reading.Reading? && Accepts(s.clock, reading.timeSamples) then reading.timeSamples
              else s.clock.lastSamplePosition
  {
    match reading
    case NoClip => s.(clock := s.clock.(smoothed := 0.0), unSmoothedTime := 0.0)
    case Reading(samples, frequency, time) =>
      var moved := InterpolateSmoothed(s.clock, dt);
      var clock :=
        if samples != moved.lastSamplePosition && samples != 0 then
          SyncSmoothed(moved.(lastSamplePosition := samples), samples as real / frequency as real)
        else moved;
      ConductorState(clock, clock.smoothed - latency, time - latency)
  }

  /** A frame whose play head is old or 0 only interpolates: a reading of 0
      changes neither the last position nor the clock by a resync. */
  lemma StepWithoutTick(s: ConductorState, dt: real, latency: real, reading: DeviceReading)
    requires reading.Reading? && !Accepts(s.clock, reading.timeSamples)
    ensures Step(s, dt, latency, reading).clock == InterpolateSmoothed(s.clock, dt)
  {
  }

  /** A frame with an accepted tick leaves clock plus variance at the device
      time, the variance within 30 ms, and the last position at the reading. */
  lemma StepWithTick(s: ConductorState, dt: real, latency: real, reading: DeviceReading)
    requires reading.Reading? && Accepts(s.clock, reading.timeSamples)
    ensures var c := Step(s, dt, latency, reading).clock;
            c.lastSamplePosition == reading.timeSamples != 0 &&
            c.smoothed + c.variance == reading.timeSamples as real / reading.frequency as real &&
            Abs(c.variance) <= HardResyncThreshold
  {
  }

  datatype FrameInput = FrameInput(dt: real, latency: real, reading: DeviceReading)

  /** The state after a sequence of Update calls. */
  function Run(s: ConductorState, frames: seq<FrameInput>): ConductorState
    decreases |frames|
  {
    if frames == [] then s
    else Run(Step(s, frames[0].dt, frames[0].latency, frames[0].reading), frames[1..])
  }

  /** A frame is short when its largest correction fits the resync band
      (0.15 s for these constants). */
  predicate ShortFrame(dt: real)
  {
    0.0 <= dt && FarDriftSpeed * dt <= HardResyncThreshold
  }

  /** Over any sequence of short frames the variance never leaves the 30 ms
      band: ticks put it inside, and the drift cannot overshoot past it. */
  lemma {:induction false} RunKeepsVarianceInBand(s: ConductorState, frames: seq<FrameInput>)
    requires Abs(s.clock.variance) <= HardResyncThreshold
    requires forall i :: 0 <= i < |frames| ==> ShortFrame(frames[i].dt)
    ensures Abs(Run(s, frames).clock.variance) <= HardResyncThreshold
    decreases |frames|
  {
    if frames != [] {
      var f := frames[0];
      CorrectionKeepsBand(s.clock.variance, f.dt, HardResyncThreshold);
      RunKeepsVarianceInBand(Step(s, f.dt, f.latency, f.reading), frames[1..]);
    }
  }

  /** The frame time of a sequence of frames. */
  function Elapsed(frames: seq<FrameInput>): real
    decreases |frames|
  {
    if frames == [] then 0.0 else frames[0].dt + Elapsed(frames[1..])
  }

  /** Between ticks (a clip present, no reading accepted) clock plus variance
      advances by exactly the elapsed frame time. */
  lemma {:induction false} RunWithoutTicksTracksElapsed(s: ConductorState, frames: seq<FrameInput>)
    requires forall i :: 0 <= i < |frames| ==>
               frames[i].reading.Reading? && !Accepts(s.clock, frames[i].reading.timeSamples)
    ensures var c := Run(s, frames).clock;
            c.smoothed + c.variance == s.clock.smoothed + s.clock.variance + Elapsed(frames)
    decreases |frames|
  {
    if frames != [] {
      var f := frames[0];
      var next := Step(s, f.dt, f.latency, f.reading);
      assert next.clock.lastSamplePosition == s.clock.lastSamplePosition;
      forall i | 0 <= i < |frames[1..]|
        ensures frames[1..][i].reading.Reading? && !Accepts(next.clock, frames[1..][i].reading.timeSamples)
      {
        assert frames[1..][i] == frames[i + 1];
      }
      RunWithoutTicksTracksElapsed(next, frames[1..]);
    }
  }

  lemma {:induction false} ElapsedNonNegative(frames: seq<FrameInput>)
    requires forall i :: 0 <= i < |frames| ==> 0.0 <= frames[i].dt
    ensures 0.0 <= Elapsed(frames)
    decreases |frames|
  {
    if frames != [] {
      forall i | 0 <= i < |frames[1..]|
        ensures 0.0 <= frames[1..][i].dt
      {
        assert frames[1..][i] == frames[i + 1];
      }
      ElapsedNonNegative(frames[1..]);
    }
  }

  /** Between ticks, with frames of at most `longest` seconds, the variance
      loses at least the close speed times the elapsed time until it is
      within 0.2 times the longest frame, and stays within that after. In
      general it does not settle on 0 but can cycle around it
      (`CorrectionCycles`); it stays at 0 only once it lands there exactly
      (`CorrectionLandsOnZero`), as after a hard resync. */
  lemma {:induction false} RunWithoutTicksApproaches(s: ConductorState, frames: seq<FrameInput>,
                                                      bound: real, longest: real)
    requires Abs(s.clock.variance) <= bound
    requires forall i :: 0 <= i < |frames| ==>
               frames[i].reading.Reading? && !Accepts(s.clock, frames[i].reading.timeSamples) &&
               0.0 <= frames[i].dt <= longest
    ensures Abs(Run(s, frames).clock.variance) <=
              Max(bound - CloseDriftSpeed * Elapsed(frames), FarDriftSpeed * longest)
    decreases |frames|
  {
    if frames == [] {
    } else {
      var f := frames[0];
      var next := Step(s, f.dt, f.latency, f.reading);
      StepWithoutTick(s, f.dt, f.latency, f.reading);
      CorrectionApproaches(s.clock.variance, f.dt, bound, longest);
      var nextBound := Max(bound - CloseDriftSpeed * f.dt, FarDriftSpeed * longest);
      forall i | 0 <= i < |frames[1..]|
        ensures frames[1..][i].reading.Reading? &&
                !Accepts(next.clock, frames[1..][i].reading.timeSamples) &&
                0.0 <= frames[1..][i].dt <= longest
      {
        assert frames[1..][i] == frames[i + 1];
      }
      RunWithoutTicksApproaches(next, frames[1..], nextBound, longest);
      ElapsedNonNegative(frames[1..]);
    }
  }

  // ---------------------------------------------------------------- component

  /** The MonoBehaviour. `smoothedTime` (the source's `_smoothedTime`),
      `SmoothedTime`, `UnSmoothedTime` and `audioLatency` are static in the
      source; one instance is modelled. `source` is what Start obtains from
      GetComponent. */
  class Conductor {
    var smoothedTime: real
    var SmoothedTime: real
    var UnSmoothedTime: real
    var audioLatency: real
    var source: AudioSource?
    var lastSamplePosition: int
    var variance: real

    function State(): ConductorState
      reads this
    {
      ConductorState(ClockState(smoothedTime, variance, lastSamplePosition), SmoothedTime, UnSmoothedTime)
    }

    /** What Update reads from the device this frame. */
    function Reading(): DeviceReading
      reads this, source
    {
      if source == null || source.clip.None? then NoClip
      else DeviceReading.Reading(source.timeSamples, source.clip.value.frequency, source.time)
    }

    constructor (source: AudioSource?)
      ensures State() == ConductorState(ClockState(0.0, 0.0, 0), 0.0, 0.0)
      ensures this.source == source && audioLatency == 0.0
    {
      smoothedTime := 0.0;
      SmoothedTime := 0.0;
      UnSmoothedTime := 0.0;
      audioLatency := 0.0;
      this.source := source;
      lastSamplePosition := 0;
      variance := 0.0;
    }

    method Update(dt: real)
      modifies this`smoothedTime, this`variance, this`lastSamplePosition,
               this`SmoothedTime, this`UnSmoothedTime
      ensures State() == Step(old(State()), dt, audioLatency, Reading())
    {
      if source == null || source.clip.None? {
        smoothedTime := 0.0;
        UnSmoothedTime := 0.0;
        return;
      }

      InterpolateSmoothedTime(dt);

      if source.timeSamples != lastSamplePosition && source.timeSamples != 0 {
        var realTime := source.timeSamples as real / source.clip.value.frequency as real;
        lastSamplePosition := source.timeSamples;
        SyncSmoothedTime(realTime);
      }

      UnSmoothedTime := source.time - audioLatency;
      SmoothedTime := smoothedTime - audioLatency;
    }

    method InterpolateSmoothedTime(dt: real)
      modifies this`smoothedTime, this`variance
      ensures State().clock == InterpolateSmoothed(old(State()).clock, dt)
    {
      smoothedTime := smoothedTime + dt;
      var correction := Correction(variance, dt);
      variance := variance - correction;
      smoothedTime := smoothedTime + correction;
    }

    method SyncSmoothedTime(realTime: real)
      modifies this`smoothedTime, this`variance
      ensures State().clock == SyncSmoothed(old(State()).clock, realTime)
    {
      variance := realTime - smoothedTime;
      if Abs(variance) > HardResyncThreshold {
        smoothedTime := realTime;
        variance := 0.0;
      }
    }
  }
}
