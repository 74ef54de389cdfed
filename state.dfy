/**
 * The process-wide game state (`gameState` in game.js): level, score, lives,
 * the per-type mineral counters and the pause / game-over flags.
 */
module State {
  import opened Config

  /** Score together with the three per-type mineral counters. */
  datatype Tally = Tally(score: int, copper: int, gold: int, rareEarth: int)

  /**
   * The effect of `collectMineral` on the tally: the score grows by the
   * mineral's points and exactly the counter of its type grows by one.
   */
  function Credit(t: Tally, k: MineralKind): (u: Tally)
    ensures u.score == t.score + MineralPoints(k)
    ensures u.copper + u.gold + u.rareEarth == t.copper + t.gold + t.rareEarth + 1
    ensures u.copper > t.copper <==> k == Copper
    ensures u.gold > t.gold <==> k == Gold
    ensures u.rareEarth > t.rareEarth <==> k == RareEarth
    ensures u.copper >= t.copper && u.gold >= t.gold && u.rareEarth >= t.rareEarth
  {
    var s := t.score + MineralPoints(k);
    match k
    case Copper => t.(score := s, copper := t.copper + 1)
    case Gold => t.(score := s, gold := t.gold + 1)
    case RareEarth => t.(score := s, rareEarth := t.rareEarth + 1)
  }

  class GameState {
    var level: int
    var score: int
    var lives: int
    var copper: int
    var gold: int
    var rareEarth: int
    var isPaused: bool
    var gameOver: bool

    /** The initial value of `gameState` at page load. */
    constructor ()
      ensures level == 1 && score == 0 && lives == InitialLives
      ensures copper == 0 && gold == 0 && rareEarth == 0
      ensures !isPaused && !gameOver
    {
      level, score, lives := 1, 0, InitialLives;
      copper, gold, rareEarth := 0, 0, 0;
      isPaused, gameOver := false, false;
    }

    /**
     * The reset of the start and restart buttons: the same values as at page
     * load, whatever the state was.
     */
    method Reset()
      modifies this
      ensures level == 1 && Counts() == Tally(0, 0, 0, 0) && lives == InitialLives
      ensures !isPaused && !gameOver
    {
      level, score, lives := 1, 0, InitialLives;
      copper, gold, rareEarth := 0, 0, 0;
      isPaused, gameOver := false, false;
    }

    function Counts(): Tally
      reads this
    {
      Tally(score, copper, gold, rareEarth)
    }
  }
}
