/**
 * The game's fixed configuration (the `CONFIG` object of game.js): board size,
 * starting lives, mineral and danger tables, and the facing directions.
 */
module Config {

  /** Board width (columns) and height (rows). */
  const W: int := 12
  const H: int := 16

  /** Lives at the start of a game. */
  const InitialLives: int := 3

  /** The spawn cell of the player: column W / 2 of row 0. */
  const SpawnX: int := W / 2
  const SpawnY: int := 0

  predicate InBounds(x: int, y: int)
  {
    0 <= x < W && 0 <= y < H
  }

  // ----- Minerals -----

  datatype MineralKind = Copper | Gold | RareEarth

  function MineralPoints(k: MineralKind): nat
  {
    match k
    case Copper => 100
    case Gold => 500
    case RareEarth => 2000
  }

  // ----- Dangers (enemies) -----

  datatype DangerKind = RockMonster | LavaCreature

  /** Points awarded when an enemy of this kind explodes. */
  function DangerPoints(k: DangerKind): nat
  {
    match k
    case RockMonster => 200
    case LavaCreature => 300
  }

  /** Enemy speed in tenths of a cell per second: 2.5 and 3.5. */
  function SpeedTenths(k: DangerKind): nat
  {
    match k
    case RockMonster => 25
    case LavaCreature => 35
  }

  /**
   * The movement throttle `moveCounter >= (60 / speed) / multiplier`, where the
   * multiplier is 0.5 for an inflated enemy and 1 otherwise. With the speed in
   * tenths this is the exact integer comparison below; no rounding happens.
   */
  predicate StepDue(k: DangerKind, counter: int, inflated: bool)
  {
    counter * SpeedTenths(k) >= (if inflated then 1200 else 600)
  }

  /** The step periods the throttle yields: 24 / 48 ticks and 18 / 35 ticks. */
  lemma StepPeriods(counter: int)
    ensures StepDue(RockMonster, counter, false) <==> counter >= 24
    ensures StepDue(RockMonster, counter, true) <==> counter >= 48
    ensures StepDue(LavaCreature, counter, false) <==> counter >= 18
    ensures StepDue(LavaCreature, counter, true) <==> counter >= 35
  {
  }

  // ----- Levels -----

  /** Number of enemies spawned on a level: `min(2 + level, 6)`. */
  function EnemyCount(level: int): (n: int)
    ensures n <= 6
    ensures level >= 1 ==> n >= 3
    ensures level >= 4 ==> n == 6
  {
    if 2 + level < 6 then 2 + level else 6
  }

  /** Bonus for reaching `newLevel`. */
  function LevelBonus(newLevel: int): int
  {
    1000 * newLevel
  }

  // ----- Facing -----

  datatype Direction = Up | Down | Left | Right

  /** The unit step of a facing (the `directions` table of `drill`). */
  function DX(d: Direction): int
  {
    match d
    case Left => -1
    case Right => 1
    case _ => 0
  }

  function DY(d: Direction): int
  {
    match d
    case Up => -1
    case Down => 1
    case _ => 0
  }
}
