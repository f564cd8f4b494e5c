/**
 * The time constants of the animation.  Every duration is an integer number of
 * tenths of a second, so that the phase lengths and the display ticker's
 * 0.1-second step share one unit and the model's arithmetic is exact.
 */
module Timing {

  /** Number of model time units in one second. */
  const TenthsPerSecond: nat := 10

  const FadeInTime: nat := 2 * TenthsPerSecond
  const FadeOutTime: nat := 2 * TenthsPerSecond
  const TotalDisplayTime: nat := 10 * TenthsPerSecond

  /** What is left of a display cycle once the symbol has faded in and out. */
  const StableTime: nat := TotalDisplayTime - FadeInTime - FadeOutTime

  /** Period of the repeating display timer (0.1 s). */
  const TickInterval: nat := 1

  /** The three phase lengths add up to one display cycle, and the stable phase lasts six seconds. */
  lemma PhaseTimesFillDisplayTime()
    ensures FadeInTime + StableTime + FadeOutTime == TotalDisplayTime
    ensures StableTime == 6 * TenthsPerSecond
    ensures StableTime % 3 == 0
  {
  }
}
