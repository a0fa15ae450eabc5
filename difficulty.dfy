/** The difficulty/config policy: difficulty drives pipe width, scroll speed and spawn
    cadence; the score alone drives how tight the pipe gap is. */
module Difficulty {
  import opened Numbers

  const BaseGap: int := 150
  const BaseWidth: int := 72
  const BaseSpeed: real := 2.6
  const BaseSpawnInterval: int := 92
  /** Math.floor(base.gap * 1.6) */
  const GapStart: int := (BaseGap as real * 1.6).Floor
  const GapMin: int := 100
  const GapScoreRange: int := 10
  /** The least pipe width and the least spawn interval. */
  const MinSize: int := 48

  datatype Config = Config(gap: int, width: int, speed: real, spawnInterval: int)

  /** `Number(slider) || 1`: a zero reading falls back to difficulty 1. */
  function EffectiveDifficulty(slider: int): (d: int)
    ensures d != 0
    ensures slider == 0 ==> d == 1
    ensures slider != 0 ==> d == slider
  {
    if slider == 0 then 1 else slider
  }

  /** The score-driven gap: interpolates from GapStart down to GapMin over the
      first GapScoreRange points, rounded with Math.round. */
  function GapFor(score: nat): (g: int)
    ensures g == if score >= GapScoreRange then GapMin else GapStart - 14 * score
  {
    assert GapStart == 240 by { assert BaseGap as real * 1.6 == 240.0; }
    var t := Min(1.0, score as real / GapScoreRange as real);
    var exact := GapStart as real + (GapMin - GapStart) as real * t;
    assert exact == if score >= GapScoreRange then GapMin as real else (GapStart - 14 * score) as real;
    RoundOfInteger(if score >= GapScoreRange then GapMin else GapStart - 14 * score);
    Round(exact)
  }

  /** currentConfig() for a given difficulty and score. */
  function ConfigFor(difficulty: int, score: nat): (c: Config)
    ensures c.width >= MinSize && c.spawnInterval >= MinSize
    ensures GapMin <= c.gap <= GapStart
  {
    var width := MaxInt(MinSize, BaseWidth + ((difficulty - 1) as real * 6.0).Floor);
    var speed := BaseSpeed + (difficulty - 1) as real * 0.6;
    var spawnInterval := MaxInt(MinSize, (BaseSpawnInterval as real - (difficulty - 1) as real * 12.0).Floor);
    Config(GapFor(score), width, speed, spawnInterval)
  }

  /** The gap is 240 at score 0 and 100 from score 10 on. */
  lemma GapEnds(score: nat)
    ensures GapFor(0) == 240
    ensures score >= 10 ==> GapFor(score) == 100
  {
  }

  /** A higher score never widens the gap. */
  lemma GapNonIncreasing(s1: nat, s2: nat)
    requires s1 <= s2
    ensures GapFor(s2) <= GapFor(s1)
  {
  }

  /** Width, speed and cadence depend on the difficulty only; the gap on the score only. */
  lemma AxesIndependent(d1: int, d2: int, s1: nat, s2: nat)
    ensures ConfigFor(d1, s1).width == ConfigFor(d1, s2).width
    ensures ConfigFor(d1, s1).speed == ConfigFor(d1, s2).speed
    ensures ConfigFor(d1, s1).spawnInterval == ConfigFor(d1, s2).spawnInterval
    ensures ConfigFor(d1, s1).gap == ConfigFor(d2, s1).gap
  {
  }

  /** For difficulties from 1 up, width = 72 + 6(d-1), speed = 2.6 + 0.6(d-1),
      and spawnInterval = max(48, 92 - 12(d-1)); raising the difficulty widens pipes,
      speeds up scrolling and never slows the spawn cadence. */
  lemma DifficultyMonotone(d1: int, d2: int, s: nat)
    requires 1 <= d1 <= d2
    ensures ConfigFor(d1, s).width == BaseWidth + 6 * (d1 - 1)
    ensures ConfigFor(d1, s).speed == BaseSpeed + 0.6 * (d1 - 1) as real
    ensures ConfigFor(d1, s).spawnInterval == MaxInt(MinSize, BaseSpawnInterval - 12 * (d1 - 1))
    ensures ConfigFor(d1, s).width <= ConfigFor(d2, s).width
    ensures ConfigFor(d1, s).speed <= ConfigFor(d2, s).speed
    ensures ConfigFor(d2, s).spawnInterval <= ConfigFor(d1, s).spawnInterval
  {
    assert ((d1 - 1) as real * 6.0).Floor == 6 * (d1 - 1);
    assert ((d2 - 1) as real * 6.0).Floor == 6 * (d2 - 1);
    assert (BaseSpawnInterval as real - (d1 - 1) as real * 12.0).Floor == BaseSpawnInterval - 12 * (d1 - 1);
    assert (BaseSpawnInterval as real - (d2 - 1) as real * 12.0).Floor == BaseSpawnInterval - 12 * (d2 - 1);
  }
}
