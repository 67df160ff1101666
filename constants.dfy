/** The module-level constants of the game (main.py lines 4 and 7-19). */
module Constants {
  /** math.tau, the double nearest to 2 * pi, taken as an exact real. */
  const Tau: real := 6.283185307179586

  /** Sizes of the target and reticle discs, as fractions of half the smaller
      screen side; only the drawing code reads them. */
  const TargetRadius: real := 0.1
  const ReticleRadius: real := 0.06667

  /** Background colours at progress 0 and 1; only the drawing code reads them. */
  const StartColor: (int, int, int) := (0, 128, 0)
  const EndColor: (int, int, int) := (64, 128, 255)

  /** Hits needed to win. */
  const MaxHitCount: nat := 50

  /** Reticle speed in radians per second, at progress 0 and at progress 1. */
  const MinSpeed: real := 1.5
  const MaxSpeed: real := 4.0

  /** The target offset window: [MaxMinOffset, MaxMaxOffset] at progress 0,
      shrinking to [MinMinOffset, MinMaxOffset] at progress 1. */
  const MinMinOffset: real := Tau / 8.0
  const MaxMinOffset: real := Tau / 4.0
  const MinMaxOffset: real := Tau / 3.0
  const MaxMaxOffset: real := Tau / 2.0

  /** Largest angular distance (radians, exclusive) that still counts as a hit. */
  const HitThreshold: real := 0.16
}
