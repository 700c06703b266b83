# Audio-sync conductors, modelled in Dafny

This project models the clock-synchronisation core of a Unity audio-sync
tutorial. A conductor component keeps an interpolated "song time" that runs
with the frame clock. It pulls that time back toward the audio device's
discrete play head (`timeSamples`), which moves only once per hardware buffer.
The in-memory CSV builder used for its diagnostics is modelled too.

- `ConductorBK` (Assets/ConductorBK.cs) keeps two clocks:
  - The **accurate** clock never rewinds on a resync. When it is ahead of the
    device it records the lead and pauses until the lead is used up.
  - The **smoothed** clock drifts toward the device at 0.1 s or 0.2 s per
    second, and snaps to it when it is more than 0.05 s off.
  - It also has the transport helpers: seek (`OverridePlaybackTime`),
    `SetAudioClip`, `UnloadAudioClip` and `Play`, plus the two latency-adjusted
    accessors.
- `TimeKeeping` (Assets/Scripts/Conductor.cs) keeps only the smoothed clock.
  Its snap threshold is 0.03 s, and it ignores a play head of 0. It also
  publishes `SmoothedTime` and `UnSmoothedTime`.
- `Drift` holds the correction rate that both smoothed clocks share (the same
  constants and branches in both files).
- `Logger` (Assets/Scripts/CSVGenerator.cs) is the comma-joined CSV text.
- `Runtime` and `Unity` are stand-ins:
  - `Runtime` holds C# `null` (`Option`) and thrown exceptions (`Outcome`).
  - `Unity` holds the audio device (`AudioSource`, `AudioClip`).

Each stateful component is a `class` with the source's fields. Every method
that changes state is proved to produce exactly the state given by a pure
function of the old state and the inputs (`Step`, `InterpolateAccurate`,
`Render`, ...). The properties are proved about those functions. The engine's
inputs are parameters or device fields:
- `Time.deltaTime` is the `dt` argument.
- `timeSamples`, the clip's `frequency`, `isPlaying` and the clip's presence
  are fields of the device object. The caller moves the device forward between
  frames.

Doubles and floats are modelled as `real`. The double NaN sentinel of
ConductorBK is the `Double` datatype (`NaN | Num(v)`). Arithmetic on NaN gives
NaN, and every comparison with NaN is false, as in IEEE arithmetic. The `(int)`
cast is truncation toward zero (`Trunc`).

The model follows the code as written, also where it departs from what its
names and comments suggest ("without backtracking", "accurate"):
- When a pause of the accurate clock ends, Assets/ConductorBK.cs:70 sets the
  clock to the overshoot `|pending - dt|`, not to the old time plus the
  overshoot. So the "accurate" clock can jump back to near zero.
  `ConductorBK.PauseEndRewinds` proves this. No lemma claims the accurate clock
  is monotone across frames.
- A new play head of 0 in ConductorBK does not re-initialise the accurate
  clock's pending pause. `ConductorBK.StepZeroReading` shows that the pause
  survives.
- Assets/Scripts/Conductor.cs does not check `isPlaying`, so the smoothed clock
  keeps interpolating while the device is paused. On a frame with no clip, that
  file leaves the public `SmoothedTime` at its last value.
- Neither file clamps the output to the clip's bounds, and the model adds no
  clamping.
- If the device is already playing at ConductorBK's first `Update`, before any
  `Play` or `SetAudioClip`, the smoothed clock starts as NaN. It stays NaN for
  as long as no new reading of 0 arrives: resyncs do not repair it
  (`StepKeepsNaNSmoothed`). A stopped frame, or a new reading of 0, sets it to a
  number.
- In both conductors the drift correction does not absorb the variance
  exactly. Between ticks the variance shrinks by at least 0.1·dt per frame
  until it lies within 0.2 times the longest frame
  (`TimeKeeping.RunWithoutTicksApproaches`,
  `ConductorBK.RunWithoutNewPositionApproaches`). In general it does not
  settle on 0 but can cycle around it: with frames of 0.016 s, a variance of
  0.001 goes to -0.0006 and back to 0.001 (`Drift.CorrectionCycles`). It stays
  at 0 only once it lands on 0 exactly, as after a hard resync or when it
  equals one frame's close correction (`Drift.CorrectionLandsOnZero`).

## Model

| member | source | states |
|---|---|---|
| `Drift.Correction` | Assets/Scripts/Conductor.cs:89-107 | correction is 0 for variance 0, has magnitude 0.1·dt when 0 < abs(v) < 0.01 and 0.2·dt from 0.01 on (so abs(correction) ≤ 0.2·dt), and has the sign of the variance for dt ≥ 0 |
| `Drift.CorrectionKeepsBand` | Assets/Scripts/Conductor.cs:109-110 | a variance inside a band stays inside after one frame whose largest correction fits the band (an overshoot cannot leave it) |
| `Drift.CorrectionApproaches` | Assets/Scripts/Conductor.cs:89-110 | one frame of length dt ≤ D takes a variance of magnitude ≤ b to magnitude ≤ max(b − 0.1·dt, 0.2·D) |
| `Drift.CorrectionCycles` | Assets/Scripts/Conductor.cs:94-110 | a variance 0 < v < 0.01 smaller than one frame's close correction 0.1·dt (with 0.1·dt − v < 0.01) overshoots below 0, and the next frame of the same length restores exactly v, so the correction alternates instead of settling on 0 |
| `Drift.CorrectionLandsOnZero` | Assets/Scripts/Conductor.cs:93-110 | a variance 0 < v < 0.01 equal to 0.1·dt becomes exactly 0 after that frame, and a variance of 0 receives no further correction |
| `Drift.CorrectionShrinksVariance` | Assets/ConductorBK.cs:103-104 | without overshoot, the variance's magnitude drops by exactly the correction applied |
| `ConductorBK.InterpolateAccurate` | Assets/ConductorBK.cs:62-78 | for dt ≥ 0: no pending pause → accurate grows by dt; pending > dt → accurate unchanged, pending drops by dt; 0 < pending ≤ dt → accurate = dt − pending, pending = 0; pending stays in [0, old pending]; the smoothed fields are untouched |
| `ConductorBK.PauseEndRewinds` | Assets/ConductorBK.cs:68-72 | the frame that ends a pause sets the accurate clock below dt, so it moves back whenever it stood beyond one frame |
| `ConductorBK.SyncAccurate` | Assets/ConductorBK.cs:111-121 | accurate becomes max(accurate, real), a NaN accurate becomes real, so it never decreases and is never behind the device; pending becomes the lead accurate − real when there is one, and is otherwise left as it was; pending ≥ 0 is kept |
| `ConductorBK.InterpolateSmoothed` | Assets/ConductorBK.cs:83-105 | smoothed + variance grows by exactly dt; smoothed moves by dt ± at most 0.2·abs(dt); with variance 0 the smoothed clock advances by exactly dt; NaN stays NaN |
| `ConductorBK.SyncSmoothed` | Assets/ConductorBK.cs:127-135 | for a numeric clock: smoothed + variance = real afterwards and abs(variance) ≤ 0.05; when abs(real − smoothed) > 0.05 the clock snaps to real with variance 0, otherwise the clock stays where it was; a NaN clock stays NaN with a NaN variance |
| `ConductorBK.Step` | Assets/ConductorBK.cs:26-57 | with no source, no clip or not playing, both times become 0 and nothing else changes; otherwise the last position becomes the reading |
| `ConductorBK.StepWithoutNewPosition` | Assets/ConductorBK.cs:35-41 | a playing frame with an unchanged play head runs both interpolations and nothing else |
| `ConductorBK.StepWithNewPosition` | Assets/ConductorBK.cs:40-56 | a playing frame with a new play head ends with last = reading, accurate ≥ real time and not below its interpolated value (reading ≠ 0), and, for a numeric smoothed clock or a reading of 0, smoothed + variance = real time and abs(variance) ≤ 0.05 |
| `ConductorBK.StepZeroReading` | Assets/ConductorBK.cs:47-55 | a new reading of 0 makes both times 0 and the smoothed variance 0, and keeps the accurate clock's pending pause |
| `ConductorBK.StepKeepsNaNSmoothed` | Assets/ConductorBK.cs:83-135 | a NaN smoothed clock stays NaN through any playing frame whose reading is not 0 |
| `ConductorBK.StepKeepsSteady` | Assets/ConductorBK.cs:26-135 | one Update with 0 ≤ dt and 0.2·dt ≤ 0.05 keeps pending ≥ 0 and a numeric abs(variance) ≤ 0.05 |
| `ConductorBK.RunKeepsSteady` | Assets/ConductorBK.cs:26-135 | over any sequence of such frames and device readings, pending ≥ 0 and abs(variance) ≤ 0.05 hold throughout |
| `ConductorBK.RunWithoutNewPositionApproaches` | Assets/ConductorBK.cs:35-41 | while the device plays on without a new play head, with 0 ≤ dt ≤ D per frame, a numeric smoothed variance of magnitude ≤ b stays numeric and ends with magnitude ≤ max(b − 0.1·elapsed, 0.2·D) |
| `ConductorBK.Trunc` | Assets/ConductorBK.cs:199 | the (int) cast truncates toward zero: for x ≥ 0, n ≤ x < n + 1 and n ≥ 0; for x < 0, n − 1 < x ≤ n and n ≤ 0 |
| `ConductorBK.Overridden` | Assets/ConductorBK.cs:201-208 | after a seek both times equal the sample's time, both pendings are 0, last equals the sample, and the bookkeeping invariant holds |
| `ConductorBK.SeekLandsOnSample` | Assets/ConductorBK.cs:198-201 | for t ≥ 0 the actual time satisfies 0 ≤ actual ≤ t < actual + 1/frequency |
| `ConductorBK.SeekBeforeStart` | Assets/ConductorBK.cs:198-201 | for t < 0 truncation gives actual − 1/frequency < t ≤ actual ≤ 0 |
| `ConductorBK.SeekIdempotent` | Assets/ConductorBK.cs:196-209 | seeking to the time a seek landed on selects the same sample and leaves the same state |
| `ConductorBK.ConductorBK.constructor` | Assets/ConductorBK.cs:7-19 | both static times start as NaN, every other clock field at 0 |
| `ConductorBK.ConductorBK.AccurateTime` | Assets/ConductorBK.cs:12 | AccurateTime plus the latency is the accurate clock; NaN exactly when the clock is NaN |
| `ConductorBK.ConductorBK.SmoothedTime` | Assets/ConductorBK.cs:13 | SmoothedTime plus the latency is the smoothed clock; NaN exactly when the clock is NaN |
| `ConductorBK.ConductorBK.Update` | Assets/ConductorBK.cs:26-57 | the new clock fields are `Step` of the old ones with this frame's dt and device reading |
| `ConductorBK.ConductorBK.InterpolateAccurateTime` | Assets/ConductorBK.cs:62-78 | the fields change as `InterpolateAccurate` says |
| `ConductorBK.ConductorBK.InterpolateSmoothedTime` | Assets/ConductorBK.cs:83-105 | the fields change as `InterpolateSmoothed` says |
| `ConductorBK.ConductorBK.SyncAccurateTime` | Assets/ConductorBK.cs:111-121 | the fields change as `SyncAccurate` says |
| `ConductorBK.ConductorBK.SyncSmoothedTime` | Assets/ConductorBK.cs:127-135 | the fields change as `SyncSmoothed` says |
| `ConductorBK.ConductorBK.OverridePlaybackTime` | Assets/ConductorBK.cs:196-209 | the device's play head becomes trunc(t·frequency), and the clock state is `Overridden` at that sample |
| `ConductorBK.ConductorBK.SetAudioClip` | Assets/ConductorBK.cs:142-146 | the clip is stored and every clock field and the play head are reset to 0; without a source, or for a null clip, a NullReference is thrown and the clock is unchanged |
| `ConductorBK.ConductorBK.UnloadAudioClip` | Assets/ConductorBK.cs:151-156 | the clip is cleared and both times become NaN, nothing else changes; without a source a NullReference is thrown |
| `ConductorBK.ConductorBK.Play` | Assets/ConductorBK.cs:161-165 | seeks to t as `OverridePlaybackTime` does and sets the device playing; without a source or clip a NullReference is thrown before anything changes |
| `TimeKeeping.InterpolateSmoothed` | Assets/Scripts/Conductor.cs:87-111 | smoothed + variance grows by exactly dt; smoothed moves by dt ± at most 0.2·abs(dt), toward the variance's sign; with variance 0 smoothed advances by dt and variance stays 0 |
| `TimeKeeping.SyncSmoothed` | Assets/Scripts/Conductor.cs:117-128 | smoothed + variance = real afterwards and abs(variance) ≤ 0.03; when abs(real − smoothed) > 0.03 the clock snaps to real with variance 0, otherwise the clock stays where it was |
| `TimeKeeping.Step` | Assets/Scripts/Conductor.cs:33-69 | with no source or clip, the clock time and UnSmoothedTime become 0 with the variance, last position and SmoothedTime untouched; otherwise SmoothedTime = clock − latency and UnSmoothedTime = device time − latency; last changes exactly on an accepted tick, to the reading |
| `TimeKeeping.StepWithoutTick` | Assets/Scripts/Conductor.cs:51-52 | a frame whose reading is the last position or 0 only interpolates: no resync, last unchanged |
| `TimeKeeping.StepWithTick` | Assets/Scripts/Conductor.cs:51-58 | after an accepted tick last is the non-zero reading, smoothed + variance is the device time and abs(variance) ≤ 0.03 |
| `TimeKeeping.RunKeepsVarianceInBand` | Assets/Scripts/Conductor.cs:45-58 | over any sequence of frames with 0 ≤ dt and 0.2·dt ≤ 0.03, abs(variance) ≤ 0.03 is kept |
| `TimeKeeping.RunWithoutTicksTracksElapsed` | Assets/Scripts/Conductor.cs:91-110 | while a clip is present and no tick is accepted, smoothed + variance advances by exactly the summed frame time |
| `TimeKeeping.RunWithoutTicksApproaches` | Assets/Scripts/Conductor.cs:45-52 | while a clip is present and no tick is accepted, with 0 ≤ dt ≤ D per frame, a variance of magnitude ≤ b ends with magnitude ≤ max(b − 0.1·elapsed, 0.2·D) |
| `TimeKeeping.Conductor.constructor` | Assets/Scripts/Conductor.cs:11-20 | the static `_smoothedTime` and all outputs and fields start at 0 |
| `TimeKeeping.Conductor.Update` | Assets/Scripts/Conductor.cs:33-69 | the new fields and outputs are `Step` of the old ones with this frame's dt, latency and device reading |
| `TimeKeeping.Conductor.InterpolateSmoothedTime` | Assets/Scripts/Conductor.cs:87-111 | the clock fields change as `InterpolateSmoothed` says |
| `TimeKeeping.Conductor.SyncSmoothedTime` | Assets/Scripts/Conductor.cs:117-128 | the clock fields change as `SyncSmoothed` says |
| `Logger.Join` | Assets/Scripts/CSVGenerator.cs:15-19 | joining no cells gives "", a single cell gives that cell with no separator, and the result starts with the first cell |
| `Logger.JoinCount` | Assets/Scripts/CSVGenerator.cs:17-20 | the joined text has each character as often as the cells have it together, plus one separator per neighbouring pair |
| `Logger.Split` | Assets/Scripts/CSVGenerator.cs:15-31 | splitting always yields at least one field |
| `Logger.SplitWithoutSep` | Assets/Scripts/CSVGenerator.cs:15 | text without the separator is one field |
| `Logger.SplitAfterSep` | Assets/Scripts/CSVGenerator.cs:19 | a separator followed by separator-free text adds exactly that text as one more field |
| `Logger.SplitJoin` | Assets/Scripts/CSVGenerator.cs:15-20 | splitting joined cells recovers them when no cell contains the separator |
| `Logger.Lines` | Assets/Scripts/CSVGenerator.cs:15-31 | line 0 is the joined headers and line i + 1 is the joined row i, one line per row |
| `Logger.RenderAppend` | Assets/Scripts/CSVGenerator.cs:23-32 | one more row adds exactly one line break and the joined row to the content |
| `Logger.RenderGrows` | Assets/Scripts/CSVGenerator.cs:25-31 | content is append-only: the content so far is a prefix of the content after any further rows |
| `Logger.LineBreakCount` | Assets/Scripts/CSVGenerator.cs:25 | with no line break inside a cell, the content has exactly as many line breaks as rows appended |
| `Logger.Parse` | Assets/Scripts/CSVGenerator.cs:15-31 | the parsed table has one more line than the content has line breaks |
| `Logger.ParseRender` | Assets/Scripts/CSVGenerator.cs:15-31 | with no comma or line break in a cell and no empty row, parsing the content gives back the headers followed by the rows in call order |
| `Logger.CSVGenerator.constructor` | Assets/Scripts/CSVGenerator.cs:11-21 | content is the headers joined by commas, no rows, not exported |
| `Logger.CSVGenerator.AppendRow` | Assets/Scripts/CSVGenerator.cs:23-32 | content gains exactly a line break and the row joined by commas, and the old content is a prefix of the new; the row is recorded after the earlier ones; an empty row throws IndexOutOfRange after the line break was appended |
| `Logger.CSVGenerator.Export` | Assets/Scripts/CSVGenerator.cs:34-36 | Exported becomes true and the content is unchanged; no method resets it |

## Left out

- The Unity engine and the audio device are not part of this model. The
  device is plain state: its `Play` only sets `isPlaying`, and a written
  `timeSamples` reads back unchanged. Its `time` and `timeSamples` are
  independent fields: a seek writes `timeSamples` only, and `time` keeps its old
  value (`SetAudioClip` and `Play` state so), whereas the engine keeps the two
  in step. The audio thread that moves the play head
  is the caller writing the device's fields between frames.
- `Start` is folded into the constructors, which take the component that
  `GetComponent<AudioSource>()` would return. The `Conductor.Instance` singleton
  is not modelled.
- The static fields are modelled as fields of one instance. This covers
  `_accurateTime`, `_smoothedTime`, `AudioLatency`, `SmoothedTime` and
  `UnSmoothedTime`. Sharing them between several instances is not modelled.
- Float and double rounding is not modelled: all values are mathematical reals,
  and the `(float)` casts in the accessors (Assets/ConductorBK.cs:12-13,
  Assets/Scripts/Conductor.cs:69) are identities. Infinities are not modelled.
- `ConductorBK.Trunc`: the int range of the `(int)` cast is not modelled. C#
  leaves an out-of-range float-to-int conversion unspecified.
- A clip's frequency is positive by type (`Unity.Frequency`), so division by a
  zero sample rate cannot come up.
- `ConductorBK.Pause`, `Resume` and `Stop` only forward to the device. Their
  transport behaviour belongs to Unity, so they are not modelled.
- The stopwatch, the drift rebase and the CSV logging inside
  `Conductor.Update` are not modelled (Assets/Scripts/Conductor.cs:59-65,
  72-80). Neither is the CSV generator that belongs to `Start`. They are
  diagnostics driven by `Stopwatch` and a desktop file export.
- `CSVGenerator.Export` is not modelled beyond setting `Exported`. It probes
  the file system and writes a file (the `while` loop over `File.Exists`,
  `StreamWriter`), and `ToPath` builds the file path. Both are foreign I/O.
- `Environment.NewLine` is fixed to a single line feed.
- Null strings among the cells are not modelled. C# interpolation renders them
  as empty strings.
- `Logger.CSVGenerator.constructor` requires at least one header. With none,
  the source throws `IndexOutOfRangeException` before the object exists.
- Both `Mover.cs` files are not part of this model. They are transform glue for
  the demo.
