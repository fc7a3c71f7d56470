/**
 * Difficulty curve: how long the target stays visible, the gap after it and
 * the period of the appearance ticker, all in milliseconds, as functions of
 * the level.
 */
module Timing {

  const VisibleFloorMs := 300
  const GapFloorMs := 150

  /** `Math.max(300, 1000 - (level - 1) * 10)`. */
  function VisibleMs(level: int): (v: int)
    ensures v >= VisibleFloorMs && v >= 1000 - (level - 1) * 10
    ensures v == VisibleFloorMs || v == 1000 - (level - 1) * 10
  {
    var linear := 1000 - (level - 1) * 10;
    if linear >= VisibleFloorMs then linear else VisibleFloorMs
  }

  /**
   * `Math.max(150, 500 - Math.floor((level - 1) * 5))`; the floor is the
   * identity on integer levels.
   */
  function GapMs(level: int): (g: int)
    ensures g >= GapFloorMs && g >= 500 - (level - 1) * 5
    ensures g == GapFloorMs || g == 500 - (level - 1) * 5
  {
    var linear := 500 - (level - 1) * 5;
    if linear >= GapFloorMs then linear else GapFloorMs
  }

  /** Period of the ticker: one visible window plus one gap. */
  function IntervalMs(level: int): (p: int)
    ensures p >= VisibleFloorMs + GapFloorMs
    ensures p > VisibleMs(level)
  {
    VisibleMs(level) + GapMs(level)
  }

  /** Neither the window nor the gap nor the period grows with the level. */
  lemma TimingNonIncreasing(l: int, m: int)
    requires l <= m
    ensures VisibleMs(m) <= VisibleMs(l)
    ensures GapMs(m) <= GapMs(l)
    ensures IntervalMs(m) <= IntervalMs(l)
  {
  }

  /** Over levels 1..70 neither floor is reached: the curve is linear throughout. */
  lemma TimingLinearWithinGame(level: int)
    requires 1 <= level <= 70
    ensures VisibleMs(level) == 1000 - (level - 1) * 10 >= 310
    ensures GapMs(level) == 500 - (level - 1) * 5 >= 155
    ensures IntervalMs(level) == 1500 - (level - 1) * 15
  {
  }
}
