/**
 * The integer formulas that a level number drives in DoubleDecision.py: how
 * long the stimulus stays on screen, how many distractor signs surround the
 * target, and how many points a correct round is worth. Levels start at 1 and
 * have no upper bound.
 */
module LevelRules {

  /** `display_time`: set in the constructor and by restart_game, never changed otherwise. */
  const InitialDisplayTimeMs: int := 2500

  /** The stimulus is never shown for less than this. */
  const MinStimulusMs: int := 1200

  /** Milliseconds taken off the stimulus per level. */
  const MsPerLevel: int := 80

  /** Distractors at level 0, before any level bonus. */
  const BaseDistractors: int := 4

  /** At most seven distractors: the eight positions less the target. */
  const MaxDistractors: int := 7

  /** Points per level for a correct round. */
  const PointsPerLevel: int := 10

  /** `max(1200, display_time - level * 80)`: how long the stimulus is shown. */
  function StimulusMs(displayTime: int, level: int): (ms: int)
    ensures ms >= MinStimulusMs
    ensures ms >= displayTime - level * MsPerLevel
    ensures ms == MinStimulusMs || ms == displayTime - level * MsPerLevel
  {
    if displayTime - level * MsPerLevel > MinStimulusMs then displayTime - level * MsPerLevel
    else MinStimulusMs
  }

  /** `min(4 + level // 2, 7)`: Python's floor division, which for a divisor of 2 is Dafny's `/`. */
  function NumDistractors(level: int): (n: int)
    ensures n <= MaxDistractors
    ensures level >= 0 ==> BaseDistractors <= n
  {
    var wanted := BaseDistractors + level / 2;
    if wanted < MaxDistractors then wanted else MaxDistractors
  }

  /** `10 * level`: the points added to the score for a correct position. */
  function Award(level: int): (points: int)
    ensures level >= 1 ==> points >= PointsPerLevel
  {
    PointsPerLevel * level
  }

  /**
   * With the only display time the game uses, the stimulus loses 80 ms per
   * level down to level 16 (1220 ms) and is held at 1200 ms from level 17 on.
   */
  lemma StimulusScheduleAtDefault(level: int)
    requires level >= 1
    ensures level <= 16 ==> StimulusMs(InitialDisplayTimeMs, level) == 2500 - 80 * level
    ensures level >= 17 ==> StimulusMs(InitialDisplayTimeMs, level) == MinStimulusMs
    ensures 1200 <= StimulusMs(InitialDisplayTimeMs, level) <= 2420
  {
  }

  /** A higher level never shows the stimulus longer. */
  lemma StimulusShrinks(displayTime: int, level: int, later: int)
    requires level <= later
    ensures StimulusMs(displayTime, later) <= StimulusMs(displayTime, level)
  {
  }

  /**
   * The distractor count grows by one every two levels, from 4 at level 1 to
   * the cap of 7, which is reached exactly from level 6 on.
   */
  lemma DistractorSchedule(level: int)
    requires level >= 1
    ensures NumDistractors(level) == MaxDistractors <==> level >= 6
    ensures level < 6 ==> NumDistractors(level) == 4 + level / 2
  {
  }

  /** A higher level never has fewer distractors. */
  lemma DistractorsGrow(level: int, later: int)
    requires level <= later
    ensures NumDistractors(level) <= NumDistractors(later)
  {
  }
}
