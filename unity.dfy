/** The parts of the Unity audio device the conductors use. The device is not
    part of the repository: it is modelled as plain state that the conductors
    read and write. The audio thread that moves the play head between frames
    is modelled by the caller assigning `timeSamples` and `time`. */
module Unity {
  import opened Runtime

  /** Sample rate in Hz; a Unity clip always reports a positive one. */
  type Frequency = f: int | 0 < f witness 44100

  datatype AudioClip = AudioClip(frequency: Frequency)

  class AudioSource {
    var clip: Option<AudioClip>
    var isPlaying: bool
    /** Play-head position in samples. */
    var timeSamples: int
    /** Play-head position in seconds, as the device reports it. */
    var time: real

    constructor (clip: Option<AudioClip>)
      ensures this.clip == clip && !isPlaying && timeSamples == 0 && time == 0.0
    {
      this.clip := clip;
      isPlaying := false;
      timeSamples := 0;
      time := 0.0;
    }

    /** Starts playback from the current play head. */
    method Play()
      modifies this`isPlaying
      ensures isPlaying
    {
      isPlaying := true;
    }
  }
}
