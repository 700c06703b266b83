/** The drift correction of the smoothed clock, identical in both conductors:
    each frame the smoothed time is nudged toward the recorded variance at
    0.1 s per second while the variance is under 10 ms, at 0.2 s per second
    from 10 ms on. */
module Drift {

  const CloseDriftSpeed: real := 0.1
  const FarDriftSpeed: real := 0.2
  /** Variances strictly below this magnitude use the close speed. */
  const CloseVariance: real := 0.01

  function Abs(x: real): real
  {
    if x < 0.0 then -x else x
  }

  function Max(x: real, y: real): real
  {
    if x < y then y else x
  }

  /** The correction one frame of length `dt` applies for `variance`: it is
      added to the smoothed time and taken off the variance. */
  function Correction(variance: real, dt: real): (c: real)
    ensures variance == 0.0 ==> c == 0.0
    ensures 0.0 < Abs(variance) < CloseVariance ==> Abs(c) == CloseDriftSpeed * Abs(dt)
    ensures CloseVariance <= Abs(variance) ==> Abs(c) == FarDriftSpeed * Abs(dt)
    ensures Abs(c) <= FarDriftSpeed * Abs(dt)
    ensures 0.0 <= dt && 0.0 < variance ==> 0.0 <= c
    ensures 0.0 <= dt && variance < 0.0 ==> c <= 0.0
  {
    if variance > 0.0 then
      (if variance < CloseVariance then dt * CloseDriftSpeed else dt * FarDriftSpeed)
    else if variance < 0.0 then
      (if variance > -CloseVariance then -dt * CloseDriftSpeed else -dt * FarDriftSpeed)
    else 0.0
  }

  /** A frame short enough that its correction is within `bound` keeps a
      variance inside [-bound, bound]: an overshoot cannot leave the band. */
  lemma CorrectionKeepsBand(variance: real, dt: real, bound: real)
    requires 0.0 <= dt && FarDriftSpeed * dt <= bound
    requires Abs(variance) <= bound
    ensures Abs(variance - Correction(variance, dt)) <= bound
  {
  }

  /** When the correction does not overshoot, the variance shrinks by exactly
      the correction applied: the clock converges toward the device. */
  lemma CorrectionShrinksVariance(variance: real, dt: real)
    requires 0.0 <= dt && Abs(Correction(variance, dt)) <= Abs(variance)
    ensures Abs(variance - Correction(variance, dt)) == Abs(variance) - Abs(Correction(variance, dt))
  {
  }

  /** One frame of length at most `longest` takes a variance of magnitude at
      most `bound` either at least the close speed closer to 0, or into the
      band an overshoot can reach, 0.2 times the longest frame. */
  lemma CorrectionApproaches(variance: real, dt: real, bound: real, longest: real)
    requires 0.0 <= dt <= longest
    requires Abs(variance) <= bound
    ensures Abs(variance - Correction(variance, dt)) <=
              Max(bound - CloseDriftSpeed * dt, FarDriftSpeed * longest)
  {
  }

  /** A variance equal to one frame's close correction lands on 0 exactly
      (0.0016 with a frame of 0.016 s), and a variance of 0 is not corrected
      again, so it stays there. */
  lemma CorrectionLandsOnZero(variance: real, dt: real, later: real)
    requires 0.0 < variance < CloseVariance && variance == CloseDriftSpeed * dt
    ensures variance - Correction(variance, dt) == 0.0
    ensures Correction(variance - Correction(variance, dt), later) == 0.0
  {
  }

  /** The correction can cycle around 0 forever: a variance smaller than one
      frame's close correction overshoots, and the next frame of the same
      length brings it back exactly (0.001 with frames of 0.016 s goes to
      -0.0006 and back to 0.001), so it keeps alternating. */
  lemma CorrectionCycles(variance: real, dt: real)
    requires 0.0 < variance < CloseVariance
    requires variance < CloseDriftSpeed * dt < variance + CloseVariance
    ensures var next := variance - Correction(variance, dt);
            next < 0.0 && next - Correction(next, dt) == variance
  {
  }
}
