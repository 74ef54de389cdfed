/**
 * The simulation loop of game.js: `initGame`, the per-frame `update`,
 * `handlePlayerHit`, `nextLevel`, the state part of `endGame`, the reset done
 * by the start and restart buttons, the guard of the input handlers and the
 * timers armed along the way.
 *
 * `Snapshot` is the value of everything a frame can change; `Frame` says what
 * one `update()` does to it, built from `TickPart` (the enemy loop, through
 * `TickedAll` and `Collide`) and `LevelUpPart` (`nextLevel`). The class `Game`
 * is proved against them, and the lemmas below state what a frame promises.
 */
module Simulation {
  import opened Options
  import opened Config
  import opened Board
  import opened State
  import opened Enemies
  import opened Players

  // ----- Lives, hits and collisions -----

  /** Lives, the pause and game-over flags and the player's cell. */
  datatype Vitals = Vitals(lives: int, isPaused: bool, gameOver: bool, px: int, py: int)

  /** The game is over exactly when the lives have run out. */
  predicate Settled(v: Vitals)
  {
    v.gameOver <==> v.lives <= 0
  }

  /**
   * `handlePlayerHit`: one life is lost; with none left the game ends and the
   * player stays put, otherwise the player is sent back to the spawn cell and
   * the game pauses.
   */
  function Hit(v: Vitals): (u: Vitals)
    ensures u.lives == v.lives - 1
    ensures Settled(v) ==> Settled(u)
    ensures u.lives > 0 ==> u.isPaused && u.px == SpawnX && u.py == SpawnY && u.gameOver == v.gameOver
    ensures u.lives <= 0 ==> u.gameOver && u.isPaused == v.isPaused && u.px == v.px && u.py == v.py
  {
    var lives := v.lives - 1;
    if lives <= 0 then v.(lives := lives, gameOver := true)
    else v.(lives := lives, px := SpawnX, py := SpawnY, isPaused := true)
  }

  /**
   * The collision checks of one frame, in list order, against the enemies as
   * they are after their own `update()`: each enemy on the player's current
   * cell is one hit.
   */
  function Collide(ws: seq<EnemyView>, v: Vitals): (u: Vitals)
    ensures u.lives <= v.lives
    ensures !Meets(ws, v.px, v.py) ==> u == v
    decreases |ws|
  {
    if ws == [] then v
    else
      assert forall j :: 0 <= j < |ws| - 1 ==> ws[..|ws| - 1][j] == ws[j];
      Meet(Collide(ws[..|ws| - 1], v), ws[|ws| - 1])
  }

  /** One collision check: a hit when enemy w is on the player's cell. */
  function Meet(u: Vitals, w: EnemyView): Vitals
  {
    if CheckCollision(w, u.px, u.py) then Hit(u) else u
  }

  /** Some enemy is on the cell (px, py). */
  predicate Meets(ws: seq<EnemyView>, px: int, py: int)
  {
    exists j :: 0 <= j < |ws| && ws[j].x == px && ws[j].y == py
  }

  /**
   * A frame's collisions keep "game over iff no lives left", never add a life
   * and cost at most one life per enemy.
   */
  lemma {:induction false} CollideKeepsSettled(ws: seq<EnemyView>, v: Vitals)
    requires Settled(v)
    ensures Settled(Collide(ws, v))
    ensures v.lives - |ws| <= Collide(ws, v).lives <= v.lives
    decreases |ws|
  {
    if ws != [] {
      CollideKeepsSettled(ws[..|ws| - 1], v);
    }
  }

  /** Enemies never enter row 0, so a player on the spawn row is never hit. */
  lemma {:induction false} SpawnRowIsSafe(ws: seq<EnemyView>, v: Vitals)
    requires forall k :: 0 <= k < |ws| ==> ViewOk(ws[k])
    requires v.py == SpawnY
    ensures Collide(ws, v) == v
    decreases |ws|
  {
    if ws != [] {
      SpawnRowIsSafe(ws[..|ws| - 1], v);
    }
  }

  /**
   * While a hit is not fatal a frame costs exactly one life if some enemy is
   * on the player's cell and none otherwise: the first hit sends the player
   * to row 0, out of every other enemy's reach.
   */
  lemma {:induction false} OneHitWhileAlive(ws: seq<EnemyView>, v: Vitals)
    requires forall k :: 0 <= k < |ws| ==> ViewOk(ws[k])
    requires v.lives >= 2
    ensures Collide(ws, v) == if Meets(ws, v.px, v.py) then Hit(v) else v
    decreases |ws|
  {
    if ws != [] {
      var init, last := ws[..|ws| - 1], ws[|ws| - 1];
      OneHitWhileAlive(init, v);
      if Meets(init, v.px, v.py) {
        var j :| 0 <= j < |init| && init[j].x == v.px && init[j].y == v.py;
        assert ws[j] == init[j];
      } else if last.x == v.px && last.y == v.py {
        assert ws[|ws| - 1] == last;
      } else {
        forall j | 0 <= j < |ws|
          ensures ws[j].x != v.px || ws[j].y != v.py
        {
          if j < |init| {
            assert ws[j] == init[j];
          }
        }
      }
    }
  }

  /** The number of enemies on the cell (px, py). */
  function CountOn(ws: seq<EnemyView>, px: int, py: int): (n: nat)
    ensures n <= |ws|
    ensures n == 0 <==> !Meets(ws, px, py)
    decreases |ws|
  {
    if ws == [] then 0
    else
      var init, last := ws[..|ws| - 1], ws[|ws| - 1];
      assert forall j :: 0 <= j < |init| ==> ws[j] == init[j];
      CountOn(init, px, py) + (if last.x == px && last.y == py then 1 else 0)
  }

  /**
   * On the last life the loop does not stop at game over and a fatal hit does
   * not move the player: every enemy on the player's cell is one more hit, so
   * lives fall by the number of such enemies and can go below zero, while
   * enemies elsewhere change nothing.
   */
  lemma {:induction false} FatalHitsPileUp(ws: seq<EnemyView>, v: Vitals)
    requires v.lives <= 1
    ensures Collide(ws, v).lives == v.lives - CountOn(ws, v.px, v.py)
    ensures Collide(ws, v).px == v.px && Collide(ws, v).py == v.py
    ensures Collide(ws, v).isPaused == v.isPaused
    ensures Collide(ws, v).gameOver == (v.gameOver || CountOn(ws, v.px, v.py) > 0)
    decreases |ws|
  {
    if ws != [] {
      FatalHitsPileUp(ws[..|ws| - 1], v);
    }
  }

  /** The case in point: two enemies on the player's cell at one life leave lives at -1. */
  lemma LastLifeDoubleHit(e: EnemyView, v: Vitals)
    requires v.lives == 1 && e.x == v.px && e.y == v.py
    ensures Collide([e, e], v).lives == -1 && Collide([e, e], v).gameOver
  {
    assert [e, e][..1] == [e] && [e][..0] == [];
    FatalHitsPileUp([e, e], v);
  }

  // ----- Enemies of a frame and of a new level -----

  /** Every enemy after its `update()` of this frame; no enemy's move depends on another or on the player. */
  function TickedAll(vs: seq<EnemyView>, t: Tiles, rows: seq<RowDraw>): (ws: seq<EnemyView>)
    requires Shaped(t) && |rows| == |vs|
    requires forall k :: 0 <= k < |vs| ==> ViewOk(vs[k])
    ensures |ws| == |vs| && forall k :: 0 <= k < |ws| ==> ViewOk(ws[k])
  {
    seq(|vs|, k requires 0 <= k < |vs| => Ticked(vs[k], t, rows[k]))
  }

  /** The random draws of `initGame`: one mineral draw per cell of rows 2 and below, one spawn per enemy. */
  datatype LevelDraws = LevelDraws(cells: Draws, spawns: seq<Spawn>)

  /** Draws as `Math.random` can produce them for a level: `min(2 + level, 6)` spawns. */
  predicate DrawsFit(d: LevelDraws, level: int)
  {
    && DrawsShaped(d.cells)
    && |d.spawns| == EnemyCount(level)
    && forall k :: 0 <= k < |d.spawns| ==> SpawnOk(d.spawns[k])
  }

  /** The enemies `initGame` creates, in order: fresh, uninflated and below row 0. */
  function Roster(spawns: seq<Spawn>): (vs: seq<EnemyView>)
    requires forall k :: 0 <= k < |spawns| ==> SpawnOk(spawns[k])
    ensures |vs| == |spawns|
    ensures forall k :: 0 <= k < |vs| ==>
      ViewOk(vs[k]) && vs[k].inflateLevel == 0 && !vs[k].isExploding
      && vs[k].x == spawns[k].x && vs[k].y == spawns[k].y && vs[k].kind == spawns[k].kind
  {
    seq(|spawns|, k requires 0 <= k < |spawns| => Spawned(spawns[k]))
  }

  /** `enemies.indexOf(e)`: the first position of e in the list, or -1. */
  function IndexOf(es: seq<Enemy>, e: Enemy): (r: int)
    ensures -1 <= r < |es|
    ensures r == -1 <==> e !in es
    ensures r >= 0 ==> es[r] == e && forall k :: 0 <= k < r ==> es[k] != e
    decreases |es|
  {
    if es == [] then -1
    else if es[0] == e then 0
    else
      var r := IndexOf(es[1..], e);
      if r == -1 then -1 else r + 1
  }

  // ----- One frame -----

  /** Everything a frame can change: `gameState`, the player, the board and the enemies' fields. */
  datatype Snapshot = Snapshot(
    level: int,
    tally: Tally,
    life: Vitals,
    facing: Direction,
    drilling: bool,
    tiles: Tiles,
    minerals: seq<Mineral>,
    enemies: seq<EnemyView>)

  predicate SnapOk(s: Snapshot)
  {
    Shaped(s.tiles) && forall k :: 0 <= k < |s.enemies| ==> ViewOk(s.enemies[k])
  }

  /** The `forEach` of `update()`: every enemy moves, and each one on the player's cell is a hit. */
  function TickPart(s: Snapshot, rows: seq<RowDraw>): (t: Snapshot)
    requires SnapOk(s) && |rows| == |s.enemies|
    ensures SnapOk(t) && |t.enemies| == |s.enemies|
    ensures t == s.(enemies := t.enemies, life := t.life)
    ensures t.life.lives <= s.life.lives
    ensures !Meets(t.enemies, s.life.px, s.life.py) ==> t.life == s.life
  {
    var ws := TickedAll(s.enemies, s.tiles, rows);
    s.(enemies := ws, life := Collide(ws, s.life))
  }

  /**
   * `initGame()`: a new board from the draws, a new player at the spawn cell
   * facing down, and the roster; `gameState` is left alone.
   */
  function Rebuilt(s: Snapshot, d: LevelDraws): (r: Snapshot)
    requires DrawsFit(d, s.level)
    ensures SnapOk(r) && BoardOk(r.tiles, r.minerals) && |r.enemies| == EnemyCount(s.level)
    ensures r.level == s.level && r.tally == s.tally
    ensures r.life == s.life.(px := SpawnX, py := SpawnY)
  {
    FreshBoardOk(d.cells);
    s.(life := s.life.(px := SpawnX, py := SpawnY), facing := Down, drilling := false,
       tiles := FreshTiles(), minerals := Generated(d.cells), enemies := Roster(d.spawns))
  }

  /**
   * `nextLevel()`: the level goes up, the bonus for the new level is added,
   * then `initGame()`. Lives and the pause and game-over flags are left as
   * they are.
   */
  function LevelUpPart(s: Snapshot, next: LevelDraws): (r: Snapshot)
    requires DrawsFit(next, s.level + 1)
    ensures r.level == s.level + 1
    ensures r.tally == s.tally.(score := s.tally.score + 1000 * (s.level + 1))
    ensures r.life.lives == s.life.lives && r.life.isPaused == s.life.isPaused && r.life.gameOver == s.life.gameOver
    ensures SnapOk(r) && BoardOk(r.tiles, r.minerals) && |r.enemies| == EnemyCount(s.level + 1)
  {
    var bonus := LevelBonus(s.level + 1);
    Rebuilt(s.(level := s.level + 1, tally := s.tally.(score := s.tally.score + bonus)), next)
  }

  /**
   * The state after the start or restart button (and after page load, whose
   * `gameState` has the same values): level 1, nothing scored or collected,
   * all lives, running, then `initGame()`.
   */
  function Opening(d: LevelDraws): Snapshot
    requires DrawsFit(d, 1)
  {
    Snapshot(1, Tally(0, 0, 0, 0), Vitals(InitialLives, false, false, SpawnX, SpawnY), Down, false,
      FreshTiles(), Generated(d.cells), Roster(d.spawns))
  }

  /**
   * One `update()`: nothing while paused or after game over; otherwise the
   * enemy loop, then the next level when every mineral has been collected,
   * checked even when the loop has just ended the game.
   */
  function Frame(s: Snapshot, rows: seq<RowDraw>, next: LevelDraws): (f: Snapshot)
    requires SnapOk(s) && |rows| == |s.enemies| && DrawsFit(next, s.level + 1)
    ensures SnapOk(f)
    ensures f.level == s.level || f.level == s.level + 1
    ensures f.life.lives <= s.life.lives
    ensures f.level == s.level ==> f.tally == s.tally
    ensures f.level == s.level + 1 ==> f.tally.score == s.tally.score + 1000 * (s.level + 1)
  {
    if s.life.isPaused || s.life.gameOver then s
    else
      var t := TickPart(s, rows);
      if AllCollected(t.minerals) then LevelUpPart(t, next) else t
  }

  /**
   * A frame keeps the board and enemy invariants and "game over iff no lives
   * left", never lowers the score or adds a life, moves the level up by at
   * most one, and changes nothing at all while paused or after game over.
   */
  lemma FrameKeepsInvariants(s: Snapshot, rows: seq<RowDraw>, next: LevelDraws)
    requires SnapOk(s) && |rows| == |s.enemies| && DrawsFit(next, s.level + 1)
    requires BoardOk(s.tiles, s.minerals) && Settled(s.life) && s.level >= 1
    ensures var f := Frame(s, rows, next);
      && SnapOk(f) && BoardOk(f.tiles, f.minerals) && Settled(f.life)
      && f.tally.score >= s.tally.score && f.life.lives <= s.life.lives
      && (f.level == s.level || f.level == s.level + 1)
      && (s.life.isPaused || s.life.gameOver ==> f == s)
  {
    if !(s.life.isPaused || s.life.gameOver) {
      var ws := TickedAll(s.enemies, s.tiles, rows);
      CollideKeepsSettled(ws, s.life);
      if AllCollected(s.minerals) {
        FreshBoardOk(next.cells);
      }
    }
  }

  /**
   * The level-complete step: once every mineral is collected the frame moves
   * to the next level with a bonus of 1000 times the new level, a fresh
   * board with every mineral buried and `min(2 + level, 6)` new enemies.
   */
  lemma FrameLevelsUp(s: Snapshot, rows: seq<RowDraw>, next: LevelDraws)
    requires SnapOk(s) && |rows| == |s.enemies| && DrawsFit(next, s.level + 1)
    requires !s.life.isPaused && !s.life.gameOver && AllCollected(s.minerals)
    ensures var f := Frame(s, rows, next);
      && f.level == s.level + 1
      && f.tally.score == s.tally.score + 1000 * (s.level + 1)
      && |f.enemies| == EnemyCount(s.level + 1)
      && f.tiles == FreshTiles() && (!AllCollected(f.minerals) <==> |f.minerals| > 0)
  {
    var m := Generated(next.cells);
    FreshBoardOk(next.cells);
    if |m| > 0 {
      assert !m[0].collected;
    }
  }

  /**
   * The other branch of the level-complete check: while a mineral is still
   * buried, a running frame stays on its level and leaves the board, the
   * score, the counters and the player's facing alone; only the enemies move
   * and their collisions are applied.
   */
  lemma FrameStaysOnLevel(s: Snapshot, rows: seq<RowDraw>, next: LevelDraws)
    requires SnapOk(s) && |rows| == |s.enemies| && DrawsFit(next, s.level + 1)
    requires !s.life.isPaused && !s.life.gameOver && !AllCollected(s.minerals)
    ensures var f := Frame(s, rows, next);
      var ws := TickedAll(s.enemies, s.tiles, rows);
      && f.level == s.level && f.tally == s.tally
      && f.tiles == s.tiles && f.minerals == s.minerals
      && f.facing == s.facing && f.drilling == s.drilling
      && f.enemies == ws && f.life == Collide(ws, s.life)
  {
  }

  /**
   * While the player has two lives or more a frame costs exactly one life if
   * some enemy ends its move on the player's cell, and none otherwise.
   */
  lemma FrameCostsAtMostOneLife(s: Snapshot, rows: seq<RowDraw>, next: LevelDraws)
    requires SnapOk(s) && |rows| == |s.enemies| && DrawsFit(next, s.level + 1)
    requires !s.life.isPaused && !s.life.gameOver && s.life.lives >= 2
    ensures var ws := TickedAll(s.enemies, s.tiles, rows);
      Frame(s, rows, next).life.lives == s.life.lives - (if Meets(ws, s.life.px, s.life.py) then 1 else 0)
  {
    OneHitWhileAlive(TickedAll(s.enemies, s.tiles, rows), s.life);
  }

  /**
   * On the last life a frame costs one life per enemy that ends its move on
   * the player's cell, so lives can go below zero; the game is over exactly
   * when at least one such enemy exists.
   */
  lemma FrameOnLastLife(s: Snapshot, rows: seq<RowDraw>, next: LevelDraws)
    requires SnapOk(s) && |rows| == |s.enemies| && DrawsFit(next, s.level + 1)
    requires !s.life.isPaused && !s.life.gameOver && s.life.lives == 1
    ensures var ws := TickedAll(s.enemies, s.tiles, rows);
      var f := Frame(s, rows, next);
      && f.life.lives == 1 - CountOn(ws, s.life.px, s.life.py)
      && (f.life.gameOver <==> Meets(ws, s.life.px, s.life.py))
  {
    FatalHitsPileUp(TickedAll(s.enemies, s.tiles, rows), s.life);
  }

  /**
   * A game starts well formed: row 0 dug and nothing else, every mineral
   * buried, no life lost, not over, and three enemies, none of them inflated.
   */
  lemma OpeningOk(d: LevelDraws)
    requires DrawsFit(d, 1)
    ensures var s := Opening(d);
      && SnapOk(s) && BoardOk(s.tiles, s.minerals) && Settled(s.life)
      && (forall i :: 0 <= i < |s.minerals| ==> !s.minerals[i].collected)
      && |s.enemies| == 3 && forall k :: 0 <= k < 3 ==> s.enemies[k].inflateLevel == 0
  {
    FreshBoardOk(d.cells);
  }

  /**
   * A drill never lowers the score or a mineral counter: digging can only
   * credit a mineral and inflating can only pay for an explosion.
   */
  lemma DrillNeverLowersTally(s: Scene, px: int, py: int, facing: Direction)
    requires SceneOk(s)
    ensures var t := PumpPart(DigPart(s, px, py, facing), px, py, facing).tally;
      && t.score >= s.tally.score
      && t.copper >= s.tally.copper && t.gold >= s.tally.gold && t.rareEarth >= s.tally.rareEarth
  {
  }

  // ----- The enemy loop and hits, on the objects -----

  /** Lives, flags and the player's cell as they are in the heap. */
  ghost function LifeOf(gs: GameState, p: Player): Vitals
    reads gs, p
  {
    Vitals(gs.lives, gs.isPaused, gs.gameOver, p.x, p.y)
  }

  /** The state part of `endGame()`. */
  method EndGame(gs: GameState)
    modifies gs`gameOver
    ensures gs.gameOver
  {
    gs.gameOver := true;
  }

  /** `handlePlayerHit()`, proved against `Hit`; the unpause timer is `Game.Unpause`. */
  method HandlePlayerHit(gs: GameState, p: Player)
    requires p.Valid()
    modifies gs`lives, gs`isPaused, gs`gameOver, p`x, p`y
    ensures p.Valid() && LifeOf(gs, p) == Hit(old(LifeOf(gs, p)))
  {
    gs.lives := gs.lives - 1;
    if gs.lives <= 0 {
      EndGame(gs);
    } else {
      p.x, p.y := SpawnX, SpawnY;
      gs.isPaused := true;
    }
  }

  /** The body of the `forEach` of `update()`: `enemy.update()`, then a hit on a collision. */
  method TickOne(e: Enemy, g: Grid, gs: GameState, p: Player, row: RowDraw)
    requires e.Valid() && g.Valid() && p.Valid()
    modifies e, gs`lives, gs`isPaused, gs`gameOver, p`x, p`y
    ensures e.Valid() && e.View() == Ticked(old(e.View()), g.tiles, row)
    ensures p.Valid()
    ensures LifeOf(gs, p) == Meet(old(LifeOf(gs, p)), e.View())
  {
    e.Update(g, row);
    if CheckCollision(e.View(), p.x, p.y) {
      HandlePlayerHit(gs, p);
    }
  }

  /** That `forEach`, proved against `TickedAll` and `Collide`. */
  method TickEach(es: seq<Enemy>, g: Grid, gs: GameState, p: Player, rows: seq<RowDraw>)
    requires Distinct(es) && AllValid(es) && |rows| == |es|
    requires g.Valid() && p.Valid()
    modifies es, gs`lives, gs`isPaused, gs`gameOver, p`x, p`y
    ensures AllValid(es) && p.Valid()
    ensures Views(es) == TickedAll(old(Views(es)), g.tiles, rows)
    ensures LifeOf(gs, p) == Collide(Views(es), old(LifeOf(gs, p)))
  {
    ghost var before := Views(es);
    ghost var after := TickedAll(before, g.tiles, rows);
    ghost var v0 := LifeOf(gs, p);
    for i := 0 to |es|
      invariant TickedUpTo(es, before, after, i)
      invariant p.Valid() && LifeOf(gs, p) == Collide(after[..i], v0)
    {
      TickAt(es, g, gs, p, rows, i, before, after, v0);
    }
    assert after[..|es|] == after;
    assert forall k :: 0 <= k < |es| ==> Views(es)[k] == after[k];
  }

  /** Enemies before position i have had their `update()` of this frame, the others not yet. */
  ghost predicate TickedUpTo(es: seq<Enemy>, before: seq<EnemyView>, after: seq<EnemyView>, i: int)
    reads es
  {
    && |before| == |es| && |after| == |es|
    && forall k :: 0 <= k < |es| ==> es[k].Valid() && es[k].View() == if k < i then after[k] else before[k]
  }

  /** Turn i of that `forEach`. */
  method TickAt(es: seq<Enemy>, g: Grid, gs: GameState, p: Player, rows: seq<RowDraw>, i: nat,
      ghost before: seq<EnemyView>, ghost after: seq<EnemyView>, ghost v0: Vitals)
    requires Distinct(es) && i < |es| && |rows| == |es| && g.Valid() && p.Valid()
    requires forall k :: 0 <= k < |before| ==> ViewOk(before[k])
    requires TickedUpTo(es, before, after, i) && after == TickedAll(before, g.tiles, rows)
    requires LifeOf(gs, p) == Collide(after[..i], v0)
    modifies es[i], gs`lives, gs`isPaused, gs`gameOver, p`x, p`y
    ensures TickedUpTo(es, before, after, i + 1)
    ensures p.Valid() && LifeOf(gs, p) == Collide(after[..i + 1], v0)
  {
    assert after[..i + 1][..i] == after[..i];
    assert Collide(after[..i + 1], v0) == Meet(Collide(after[..i], v0), after[i]);
    TickOne(es[i], g, gs, p, rows[i]);
  }

  /** The loop of `initGame()` that creates and pushes the enemies, in order. */
  method SpawnAll(spawns: seq<Spawn>) returns (es: seq<Enemy>)
    requires forall k :: 0 <= k < |spawns| ==> SpawnOk(spawns[k])
    ensures Distinct(es) && AllValid(es) && Views(es) == Roster(spawns)
    ensures forall k :: 0 <= k < |es| ==> fresh(es[k])
  {
    es := [];
    for i := 0 to |spawns|
      invariant |es| == i && Distinct(es)
      invariant forall k :: 0 <= k < i ==> fresh(es[k]) && es[k].Valid() && es[k].View() == Spawned(spawns[k])
    {
      var e := new Enemy(spawns[i]);
      es := es + [e];
    }
  }

  /** The objects `initGame()` creates: board, player and enemies. */
  method NewLevel(d: LevelDraws) returns (g: Grid, p: Player, es: seq<Enemy>)
    requires DrawsShaped(d.cells) && forall k :: 0 <= k < |d.spawns| ==> SpawnOk(d.spawns[k])
    ensures fresh(g) && fresh(p) && forall k :: 0 <= k < |es| ==> fresh(es[k])
    ensures g.Valid() && p.Valid() && Distinct(es) && AllValid(es)
    ensures g.tiles == FreshTiles() && g.minerals == Generated(d.cells)
    ensures p.x == SpawnX && p.y == SpawnY && p.direction == Down && !p.isDrilling
    ensures Views(es) == Roster(d.spawns)
  {
    g := new Grid(d.cells);
    p := new Player();
    es := SpawnAll(d.spawns);
  }

  /** The game invariant, on the objects: board, player and enemies valid, over iff no lives left, level at least 1. */
  ghost predicate ValidOf(gs: GameState, g: Grid, p: Player, es: seq<Enemy>)
    reads gs, g, p, es
  {
    && g.Valid() && p.Valid() && Distinct(es) && AllValid(es)
    && Settled(LifeOf(gs, p)) && gs.level >= 1
  }

  ghost function SnapOf(gs: GameState, g: Grid, p: Player, es: seq<Enemy>): Snapshot
    reads gs, g, p, es
  {
    Snapshot(gs.level, gs.Counts(), LifeOf(gs, p), p.direction, p.isDrilling, g.tiles, g.minerals, Views(es))
  }

  /** The `forEach` of `update()` on the whole state, proved against `TickPart`. */
  method TickScene(es: seq<Enemy>, g: Grid, gs: GameState, p: Player, rows: seq<RowDraw>)
    requires ValidOf(gs, g, p, es) && |rows| == |es|
    modifies es, gs`lives, gs`isPaused, gs`gameOver, p`x, p`y
    ensures ValidOf(gs, g, p, es)
    ensures SnapOf(gs, g, p, es) == TickPart(old(SnapOf(gs, g, p, es)), rows)
  {
    ghost var s0 := SnapOf(gs, g, p, es);
    TickEach(es, g, gs, p, rows);
    CollideKeepsSettled(Views(es), s0.life);
  }

  /** Page load followed by the start button, on fresh objects. */
  method NewGame(d: LevelDraws) returns (gs: GameState, g: Grid, p: Player, es: seq<Enemy>)
    requires DrawsFit(d, 1)
    ensures ValidOf(gs, g, p, es) && SnapOf(gs, g, p, es) == Opening(d)
  {
    gs := new GameState();
    g, p, es := NewLevel(d);
  }

  /** `initGame()` on the state `gs`, g0, p0, es0: the new board, player and enemies are returned. */
  method InitGameOn(gs: GameState, g0: Grid, p0: Player, es0: seq<Enemy>, d: LevelDraws)
      returns (g: Grid, p: Player, es: seq<Enemy>)
    requires ValidOf(gs, g0, p0, es0) && DrawsFit(d, gs.level)
    ensures fresh(g) && fresh(p)
    ensures ValidOf(gs, g, p, es) && SnapOf(gs, g, p, es) == Rebuilt(old(SnapOf(gs, g0, p0, es0)), d)
  {
    g, p, es := NewLevel(d);
  }

  /** `nextLevel()` on the state `gs`, g0, p0, es0. */
  method NextLevelOn(gs: GameState, g0: Grid, p0: Player, es0: seq<Enemy>, next: LevelDraws)
      returns (g: Grid, p: Player, es: seq<Enemy>)
    requires ValidOf(gs, g0, p0, es0) && DrawsFit(next, gs.level + 1)
    modifies gs`level, gs`score
    ensures ValidOf(gs, g, p, es) && SnapOf(gs, g, p, es) == LevelUpPart(old(SnapOf(gs, g0, p0, es0)), next)
  {
    gs.level := gs.level + 1;
    gs.score := gs.score + LevelBonus(gs.level);
    g, p, es := InitGameOn(gs, g0, p0, es0, next);
  }

  /** The start and restart buttons on the state `gs`: reset, then `initGame()`. */
  method StartOn(gs: GameState, d: LevelDraws)
      returns (g: Grid, p: Player, es: seq<Enemy>)
    requires DrawsFit(d, 1)
    modifies gs
    ensures ValidOf(gs, g, p, es) && SnapOf(gs, g, p, es) == Opening(d)
  {
    gs.Reset();
    g, p, es := NewLevel(d);
  }

  // ----- The game object -----

  class Game {
    /** `gameState`: one object for the whole session. */
    const state: GameState
    var grid: Grid
    var player: Player
    var enemies: seq<Enemy>

    ghost predicate Valid()
      reads this, state, grid, player, enemies
    {
      ValidOf(state, grid, player, enemies)
    }

    ghost function Life(): Vitals
      reads this, state, player
    {
      LifeOf(state, player)
    }

    ghost function Snap(): Snapshot
      reads this, state, grid, player, enemies
    {
      SnapOf(state, grid, player, enemies)
    }

    /** Page load followed by the start button: the initial `gameState`, then `initGame()`. */
    constructor (d: LevelDraws)
      requires DrawsFit(d, 1)
      ensures Valid() && Snap() == Opening(d)
    {
      var gs, g, p, es := NewGame(d);
      ghost var s1 := SnapOf(gs, g, p, es);
      ghost var vs := Views(es);
      state, grid, player, enemies := gs, g, p, es;
      assert Views(es) == vs && AllValid(es);
      assert ValidOf(gs, g, p, es);
      assert SnapOf(gs, g, p, es) == s1;
    }

    /** The start and restart buttons: `gameState` is reset, then `initGame()`. */
    method Start(d: LevelDraws)
      requires DrawsFit(d, 1)
      modifies state, this`grid, this`player, this`enemies
      ensures Valid() && Snap() == Opening(d)
    {
      var g, p, es := StartOn(state, d);
      ghost var s1 := SnapOf(state, g, p, es);
      ghost var vs := Views(es);
      grid, player, enemies := g, p, es;
      assert Views(es) == vs && AllValid(es);
      assert ValidOf(state, g, p, es);
      assert SnapOf(state, g, p, es) == s1;
    }

    /** One frame's `update()`, proved against `Frame`. */
    method Update(rows: seq<RowDraw>, next: LevelDraws)
      requires Valid() && |rows| == |enemies| && DrawsFit(next, state.level + 1)
      modifies this, state, player, enemies
      ensures Valid()
      ensures Snap() == Frame(old(Snap()), rows, next)
    {
      if state.isPaused || state.gameOver {
        return;
      }
      TickScene(enemies, grid, state, player, rows);
      if AllCollected(grid.minerals) {
        NextLevel(next);
      }
    }

    /** `nextLevel()`, proved against `LevelUpPart`. */
    method NextLevel(next: LevelDraws)
      requires Valid() && DrawsFit(next, state.level + 1)
      modifies state`level, state`score, this`grid, this`player, this`enemies
      ensures Valid() && Snap() == LevelUpPart(old(Snap()), next)
    {
      var g, p, es := NextLevelOn(state, grid, player, enemies, next);
      ghost var s1 := SnapOf(state, g, p, es);
      ghost var vs := Views(es);
      grid, player, enemies := g, p, es;
      assert Views(es) == vs && AllValid(es);
      assert ValidOf(state, g, p, es);
      assert SnapOf(state, g, p, es) == s1;
    }

    /** A move from the keyboard or the touch pad: ignored while paused or after game over. */
    method OnMove(dx: int, dy: int)
      requires Valid()
      modifies player`x, player`y, player`direction, grid
      modifies state`score, state`copper, state`gold, state`rareEarth
      ensures Valid()
      ensures old(state.isPaused || state.gameOver) || !InBounds(old(player.x) + dx, old(player.y) + dy) ==>
        unchanged(player, grid, state)
      ensures !old(state.isPaused || state.gameOver) && InBounds(old(player.x) + dx, old(player.y) + dy) ==>
        && player.x == old(player.x) + dx && player.y == old(player.y) + dy
        && player.direction == Facing(dx, dy, old(player.direction))
        && var r := Dig(old(grid.tiles), old(grid.minerals), player.x, player.y);
        && grid.tiles == r.tiles && grid.minerals == r.minerals
        && state.Counts() == CreditFound(old(state.Counts()), r.found)
    {
      if !state.isPaused && !state.gameOver {
        var moved := player.Move(grid, state, dx, dy);
      }
    }

    /** The drill button or the space bar: ignored while paused or after game over. */
    method OnDrill()
      requires Valid()
      modifies player`isDrilling, grid, enemies
      modifies state`score, state`copper, state`gold, state`rareEarth
      ensures Valid()
      ensures old(state.isPaused || state.gameOver) ==>
        unchanged(player, grid, state) && Views(enemies) == old(Views(enemies))
      ensures !old(state.isPaused || state.gameOver) ==>
        player.isDrilling &&
        SceneOf(grid, enemies, state) ==
          PumpPart(DigPart(old(SceneOf(grid, enemies, state)), player.x, player.y, player.direction),
            player.x, player.y, player.direction)
    {
      if !state.isPaused && !state.gameOver {
        player.Drill(grid, enemies, state);
      }
    }

    // ----- Timers -----

    /** The one-second timer armed by a non-fatal hit: the game resumes. */
    method Unpause()
      requires Valid()
      modifies state`isPaused
      ensures Valid() && !state.isPaused
    {
      state.isPaused := false;
    }

    /** The timer armed by `drill()`: the drilling flag drops. */
    method DrillFlashEnds()
      requires Valid()
      modifies player`isDrilling
      ensures Valid() && !player.isDrilling
    {
      player.StopDrilling();
    }

    /** The deflate timer of enemy e, which may no longer be in the list. */
    method DeflateTimer(e: Enemy)
      requires Valid() && e.Valid()
      modifies e
      ensures Valid() && e.View() == Deflated(old(e.View()))
    {
      e.Deflate();
    }

    /** The removal timer armed by `explode()`: e leaves the list if it is still there. */
    method RemoveExploded(e: Enemy)
      requires Valid() && e.isExploding
      modifies this`enemies
      ensures Valid() && e !in enemies
      ensures var i := IndexOf(old(enemies), e);
        enemies == if i == -1 then old(enemies) else old(enemies)[..i] + old(enemies)[i + 1..]
      ensures forall f :: f in old(enemies) && f != e ==> f in enemies
    {
      var i := IndexOf(enemies, e);
      if i > -1 {
        enemies := enemies[..i] + enemies[i + 1..];
      }
    }
  }
}
