/**
 * Scoring arithmetic of the game: the streak multiplier, the per-level base
 * value of a catch and the points a catch is worth.
 *
 * The source keeps the multiplier as the float `1 + k * 0.5` with k in 0..4.
 * Here it is kept in half-units (2..6), so that every quantity is an integer
 * and `Math.round` can be stated exactly.
 */
module Scoring {

  /** Multiplier steps are capped at this many half-units above 1. */
  const MaxSteps := 4

  /** The multiplier of a fresh game and of a streak broken by a miss: 1.0. */
  const BaseHalves := 2

  /** Every three consecutive catches add one half-unit to the multiplier. */
  const StreakPerStep := 3

  function Min(a: int, b: int): int { if a <= b then a else b }

  /**
   * `1 + min(4, floor(streak / 3)) * 0.5`, in half-units.
   * The result is always one of 1.0, 1.5, 2.0, 2.5, 3.0.
   */
  function MultiplierHalves(streak: nat): (m: nat)
    ensures BaseHalves <= m <= BaseHalves + MaxSteps
    ensures m == BaseHalves + MaxSteps <==> streak >= StreakPerStep * MaxSteps
    ensures streak < StreakPerStep ==> m == BaseHalves
  {
    BaseHalves + Min(MaxSteps, streak / StreakPerStep)
  }

  /** The multiplier never decreases as the streak grows. */
  lemma MultiplierMonotone(s: nat, t: nat)
    requires s <= t
    ensures MultiplierHalves(s) <= MultiplierHalves(t)
  {
  }

  /** Each further three catches raise the multiplier by one half-unit until the cap. */
  lemma MultiplierStep(streak: nat)
    ensures MultiplierHalves(streak + StreakPerStep)
         == Min(BaseHalves + MaxSteps, MultiplierHalves(streak) + 1)
  {
  }

  /**
   * `10 + Math.floor(level * 1.5)`. The floor of `1.5 * level` is the integer
   * `f` with `2 * f <= 3 * level < 2 * f + 2`.
   */
  function BasePoints(level: nat): (b: nat)
    ensures 2 * (b - 10) <= 3 * level < 2 * (b - 10) + 2
    ensures b >= 10 + level
  {
    10 + (3 * level) / 2
  }

  /**
   * `Math.round(base * multiplier)` with the multiplier in half-units.
   * `Math.round` rounds halves upward, so the result `p` is the integer with
   * `p - 0.5 <= base * halves / 2 < p + 0.5`.
   */
  function RoundHalves(base: nat, halves: nat): (p: nat)
    ensures 2 * p - 1 <= base * halves < 2 * p + 1
  {
    (base * halves + 1) / 2
  }

  /** Points awarded for one catch at `level` with multiplier `halves`. */
  function CatchPoints(level: nat, halves: nat): (p: nat)
    requires halves >= BaseHalves
    ensures p >= BasePoints(level)
    ensures 2 * p - 1 <= BasePoints(level) * halves < 2 * p + 1
  {
    RoundHalves(BasePoints(level), halves)
  }

  /** A larger multiplier never yields fewer points at the same level. */
  lemma CatchPointsMonotone(level: nat, h: nat, k: nat)
    requires BaseHalves <= h <= k
    ensures CatchPoints(level, h) <= CatchPoints(level, k)
  {
    var b := BasePoints(level);
    assert b * h <= b * k by {
      assert b * k == b * h + b * (k - h);
    }
  }

  /** The worked figures: level 1 at streak 1 and 4, level 10 at streak 1. */
  lemma ScoringExamples()
    ensures CatchPoints(1, MultiplierHalves(1)) == 11
    ensures CatchPoints(1, MultiplierHalves(3)) == 17
    ensures CatchPoints(1, MultiplierHalves(4)) == 17
    ensures CatchPoints(10, MultiplierHalves(1)) == 25
    ensures CatchPoints(70, MultiplierHalves(12)) == 345
  {
  }
}
