# GeologgIA Digging — a Dafny model of the game core

This project models the core of game.js. That is the digging game in which a
player tunnels through a 12 x 16 board, collects copper, gold and rare-earth
minerals, and fights off rock monsters and lava creatures by pumping them up
with the drill until they explode. The model covers:

- `CONFIG` (`config.dfy`): board size, starting lives, mineral and danger
  tables, and the enemy movement throttle as an exact integer test.
- `gameState` (`state.dfy`): a class with the level, score, lives, the three
  mineral counters and the pause and game-over flags, plus the reset done by
  the start and restart buttons.
- `Grid` (`grid.dfy`): the tile rows and the mineral list are fields that the
  methods reassign. They are proved against the pure functions `Dig`,
  `FreshTiles` and `Generated`, and against the board invariant `BoardOk`: row
  0 is dug, minerals sit at row 2 or below with one per cell, and a mineral is
  collected exactly when its tile is dug.
- `Enemy` (`enemy.dfy`): the inflate / explode state machine, the deflate
  timer, the horizontal patrol with its random row change, and the collision
  and inflate-range tests. Each is proved against a function on `EnemyView`,
  the value of an enemy's fields.
- `Player` (`player.dfy`): moving with automatic digging, and drilling. A drill
  digs the faced cell and then inflates, in list order, every enemy on that
  cell. Mineral collection is also here.
- The simulation (`game.dfy`): `initGame`, the per-frame `update`,
  `handlePlayerHit`, `nextLevel`, the state part of `endGame`, the reset of
  the start and restart buttons, the pause guard of the input handlers, and
  the timers the game arms.
  - `Frame` states what one `update()` does to a `Snapshot` of the whole state.
  - The class `Game` is proved against `Frame`.
  - Lemmas state what a frame promises: lives and score are monotone, "game
    over iff no lives left" always holds, and a frame costs at most one life
    while the player has lives to spare.

`Math.random` is not modelled as a source of randomness: every draw the code
makes is a parameter.

- `Draws` gives the mineral type of each cell of rows 2 and below, or none.
- `Spawn` gives an enemy's type, cell and initial direction.
- `RowDraw` gives an enemy's row change on a step tick.

Timers (`setTimeout`) become methods that the environment calls when the
timer fires. These are `Game.Unpause`, `Game.DrillFlashEnds`,
`Game.DeflateTimer` and `Game.RemoveExploded`.

Positions are whole cells, and `Math.abs(d) < 0.5` and `Math.sqrt(...) <= 1.5`
are compared in doubled or squared integers. So `checkCollision` is exactly
"same cell", and `isInInflateRange` is exactly "the cell the player faces".

Three behaviours of the code are modelled as written:

- Every enemy on the player's cell triggers its own `handlePlayerHit`. A fatal
  hit does not move the player, so on the last life the lives fall by the
  number of enemies on the player's cell and can go below zero
  (`FatalHitsPileUp`, `FrameOnLastLife`, `LastLifeDoubleHit`).
- The level-complete check in `update()` runs even after the enemy loop has
  just ended the game.
- An exploding enemy still moves its animation frame and still collides with
  the player until the removal timer takes it out of the list.

## Model

| member | source | states |
|---|---|---|
| Config.StepPeriods | game.js:484-490 | the `moveCounter >= (60 / speed) / multiplier` throttle fires at exactly 24 / 48 ticks for a rock monster and 18 / 35 ticks for a lava creature (normal / inflated) |
| Config.EnemyCount | game.js:618 | `min(2 + level, 6)`: at most 6, at least 3 from level 1, exactly 6 from level 4 |
| State.Credit | game.js:301-307 | collecting a mineral adds its points to the score and raises exactly the counter of its type by one |
| State.GameState.constructor | game.js:26-34 | the initial `gameState`: level 1, score 0, 3 lives, no minerals, running |
| State.GameState.Reset | game.js:850-857 | the start and restart reset gives the page-load values whatever the state was |
| Board.FindUncollected | game.js:134 | `minerals.find`: the first uncollected mineral on the cell, or none when there is no such mineral |
| Board.Dig | game.js:123-141 | `digTile`: nothing changes off the board or on a dug tile; otherwise that tile, and no other, becomes dug; any mineral returned lies on the cell and is now collected |
| Board.DigKeepsBoard | game.js:123-141 | digging keeps the board invariant (a mineral is collected iff its tile is dug) |
| Board.DigCollects | game.js:130-137 | digging an undug cell that holds a mineral returns that mineral, collected, and changes no other mineral |
| Board.DigFindsNothing | game.js:134-140 | digging a cell without a mineral returns null and leaves the list alone |
| Board.DigTwiceFindsNothing | game.js:123-141 | a second dig of the same cell returns null: a mineral is credited at most once |
| Board.LevelCompleteIffMineralsDug | game.js:643 | on a valid board `every(m => m.collected)` holds exactly when every mineral's tile is dug |
| Board.FreshTiles | game.js:72-84 | a new board has row 0 dug and every other tile undug |
| Board.PlacedBeforeIsWellPlaced | game.js:90-114 | the minerals generated before a cell are uncollected, on the board at row 2 or below, one per cell, and in loop order |
| Board.AppendAfterKeepsPlaced | game.js:100-108 | pushing the mineral of the current cell after those of earlier cells keeps the list well placed |
| Board.PlacedBeforeIsDrawn | game.js:95-113 | the minerals generated before a cell are exactly the drawn minerals of the earlier cells |
| Board.GeneratedIsDrawn | game.js:90-114 | a mineral is on the new board iff its cell's draw is its type, it lies in rows 2 .. H - 1, and it is uncollected |
| Board.FreshBoardOk | game.js:71-114 | a new board satisfies the board invariant and every mineral is buried |
| Board.Grid.constructor | game.js:66-70 | `new Grid()` is valid, with fresh tiles and the generated minerals |
| Board.Grid.Init | game.js:72-88 | `init` builds H rows of W undug tiles, digs row 0, then generates minerals |
| Board.Grid.GenerateMinerals | game.js:90-114 | the nested loop yields exactly `Generated(draws)`, row by row from row 2, left to right |
| Board.Grid.GetTile | game.js:116-121 | null exactly off the board; otherwise the tile, which is dug exactly when `IsDug` holds |
| Board.Grid.DigTile | game.js:123-141 | `digTile` on the object equals `Dig` on its old tiles and minerals, and keeps the board invariant |
| Enemies.Spawned | game.js:424-435 | a new enemy keeps its drawn type, cell and direction, is uninflated, not exploding, and satisfies the enemy invariant |
| Enemies.Inflated | game.js:437-458 | `inflate` does nothing at level 4; otherwise the level rises by one, and the enemy starts exploding iff it was at level 3; a deflate timer is armed iff the new level is below 4; position, direction and counters are kept |
| Enemies.DeflateUndoesInflate | game.js:437-456 | below level 3, the deflate timer armed by an inflate undoes it exactly, leaving no timer pending |
| Enemies.Deflated | game.js:451-455 | the deflate timer lowers the level by one; a timer cancelled by a later `inflate` changes nothing; it never ends an explosion |
| Enemies.RunKeepsPhase | game.js:437-477 | over any run of inflates and deflates the level stays in [0, 4], level 4 is never left, and the enemy's points are paid exactly once, iff the run reaches level 4 |
| Enemies.Ticked | game.js:479-511 | one `update()` keeps the enemy invariant: on the board, never in row 0, direction +-1 |
| Enemies.TickedMoves | game.js:479-511 | an exploding enemy only counts frames; between steps only the counter moves; on a step the enemy advances iff the cell ahead is dug and turns round otherwise, and a row change goes one row into a dug cell; a drawn shift down is taken iff the cell below is dug, a drawn shift up iff the cell above is dug and not in row 0; inflation is untouched |
| Enemies.CheckCollision | game.js:513-515 | `checkCollision` holds iff the enemy is on the player's cell |
| Enemies.IsInInflateRange | game.js:517-532 | `isInInflateRange` holds iff the enemy is on the cell the player faces |
| Enemies.Enemy.constructor | game.js:424-435 | `new Enemy` equals `Spawned` of its draws |
| Enemies.Enemy.Inflate | game.js:437-458 | `inflate()` equals `Inflated`, and the score grows by the enemy's points exactly when it explodes |
| Enemies.Enemy.Explode | game.js:460-463 | `explode()` sets the exploding flag and adds the enemy's points to the score |
| Enemies.Enemy.Deflate | game.js:451-455 | the deflate timer's callback equals `Deflated` |
| Enemies.Enemy.Update | game.js:479-511 | `update()` equals `Ticked` on the current tiles |
| Players.Facing | game.js:260-264 | the new facing is the first of right, left, down, up that the step calls for; it is unchanged for (0, 0) and points along a unit step |
| Players.PumpOne | game.js:291-295 | during a drill an enemy is inflated iff it is on the faced cell |
| Players.AwardOne | game.js:291-295 | an enemy on the faced cell at level 3 pays its points during a drill; any other enemy pays nothing |
| Players.Pumped | game.js:291-295 | the drill's inflate loop keeps the number of enemies and their invariant |
| Players.Player.constructor | game.js:227-235 | `new Player()` stands on the spawn cell (W / 2, 0), faces down and is not drilling |
| Players.Player.Move | game.js:237-270 | off the board nothing changes and the result is false; otherwise the result is true, the target is dug as by `Dig` with any mineral credited, and the player steps there facing `Facing(dx, dy)` |
| Players.Player.Drill | game.js:272-299 | `drill()` digs the faced cell, then inflates the enemies in range in list order: the state equals `PumpPart(DigPart(...))` |
| Players.Player.DigFaced | game.js:279-288 | the digging half of `drill()` equals `DigPart` |
| Players.Player.DigAndCollect | game.js:284-288 | `digTile` followed by `collectMineral` of what it returns credits exactly the mineral `Dig` finds |
| Players.Player.InflateFaced | game.js:290-295 | the inflating half of `drill()` equals `PumpPart` |
| Players.Player.InflateInRange | game.js:290-295 | the `forEach` loop leaves the enemies as `Pumped` and adds `PumpAward` to the score |
| Players.Player.InflateIfInRange | game.js:292-294 | one turn of that loop equals `PumpOne` and pays `AwardOne` |
| Players.Player.CollectMineral | game.js:301-307 | `collectMineral` equals `Credit` on the score and counters |
| Players.Player.StopDrilling | game.js:298 | the 200 ms timer drops the drilling flag |
| Simulation.Hit | game.js:663-683 | `handlePlayerHit` costs one life; on the last life the game ends and the player stays; otherwise the player goes back to spawn and the game pauses; "over iff no lives" is kept |
| Simulation.CollideKeepsSettled | game.js:633-640 | a frame's collisions keep "game over iff no lives left", never add a life and cost at most one life per enemy |
| Simulation.SpawnRowIsSafe | game.js:503-508 | enemies never enter row 0, so a player on the spawn row is never hit |
| Simulation.OneHitWhileAlive | game.js:633-640 | with two lives or more a frame costs one life iff some enemy is on the player's cell, and none otherwise |
| Simulation.CountOn | game.js:637 | the number of enemies on a cell is at most the list length, and zero iff no enemy is on that cell |
| Simulation.Collide | game.js:633-640 | the collision checks of the loop never add a life, and change nothing when no enemy is on the player's cell |
| Simulation.FatalHitsPileUp | game.js:633-640 | on the last life, for any enemy list, lives fall by the number of enemies on the player's cell; the player's cell and the pause flag are kept, and the game is over iff it was or some enemy is on the cell |
| Simulation.FrameOnLastLife | game.js:629-647 | on the last life a frame costs one life per updated enemy on the player's cell, and the game is over iff there is such an enemy |
| Simulation.LastLifeDoubleHit | game.js:663-672 | two enemies on the player's cell at one life leave lives at -1 with the game over |
| Simulation.TickedAll | game.js:633-635 | every enemy is updated and keeps its invariant; the list length is kept |
| Simulation.Roster | game.js:617-623 | `initGame` creates one enemy per spawn draw, in order, uninflated and on its drawn cell |
| Simulation.IndexOf | game.js:472 | `indexOf` returns -1 iff the enemy is absent, and otherwise its first position |
| Simulation.TickPart | game.js:632-639 | the enemy loop changes only the enemies and lives, flags and player cell; it keeps the enemy invariant and the count, never adds a life, and costs nothing when no updated enemy is on the player's cell |
| Simulation.Rebuilt | game.js:612-627 | `initGame` gives a board that satisfies the board invariant and `min(2 + level, 6)` enemies, puts the player on spawn, and leaves level, score, counters, lives and flags alone |
| Simulation.LevelUpPart | game.js:685-696 | `nextLevel` raises the level by one and the score by 1000 times the new level, keeps counters, lives and flags, and starts a valid board with `min(2 + level, 6)` enemies |
| Simulation.Frame | game.js:629-647 | one `update()` keeps the enemy invariant and never adds a life; the level stays or rises by one; tally unchanged on the same level, score up by 1000 times the new level on a level-up |
| Simulation.FrameKeepsInvariants | game.js:629-647 | a frame keeps the board and enemy invariants and "over iff no lives"; score never falls and lives never rise; the level rises by at most one; a paused or ended game is untouched |
| Simulation.FrameLevelsUp | game.js:641-646 | once every mineral is collected the frame moves to the next level, with a bonus of 1000 times the new level, a fresh board and `min(2 + level, 6)` enemies |
| Simulation.FrameStaysOnLevel | game.js:641-646 | while a mineral is uncollected a running frame keeps the level, board, score, counters and facing; only the enemies move and their collisions apply |
| Simulation.FrameCostsAtMostOneLife | game.js:629-647 | with two lives or more a frame costs exactly one life if some enemy ends its move on the player's cell, and none otherwise |
| Simulation.OpeningOk | game.js:850-867 | a started game is well formed, with every mineral buried, full lives, not over, and three uninflated enemies |
| Simulation.DrillNeverLowersTally | game.js:272-307 | a drill never lowers the score or any mineral counter |
| Simulation.EndGame | game.js:698-699 | `endGame` sets the game-over flag |
| Simulation.HandlePlayerHit | game.js:663-683 | `handlePlayerHit` on the objects equals `Hit` |
| Simulation.TickOne | game.js:633-639 | one turn of the `forEach` equals `Ticked` for the enemy, then `Meet` for the lives |
| Simulation.TickEach | game.js:632-639 | the whole `forEach` equals `TickedAll` on the enemies and `Collide` on the lives |
| Simulation.TickAt | game.js:633-639 | turn i of the loop extends both the updated prefix and the collision fold by one enemy |
| Simulation.SpawnAll | game.js:619-623 | the loop pushes one new, distinct enemy per spawn draw, and their fields equal `Roster` |
| Simulation.NewLevel | game.js:612-627 | `initGame` creates a fresh board, a player at spawn facing down, and the roster |
| Simulation.TickScene | game.js:632-639 | the enemy loop on the whole state equals `TickPart` and keeps the game invariant |
| Simulation.NewGame | game.js:26-34 | page load followed by a start gives `Opening` |
| Simulation.InitGameOn | game.js:612-627 | `initGame` on a game rebuilds the board, the player and the enemies and leaves `gameState` alone |
| Simulation.NextLevelOn | game.js:685-696 | `nextLevel` equals `LevelUpPart`: level + 1, a bonus of 1000 times the new level, then `initGame` |
| Simulation.StartOn | game.js:850-867 | the start button's reset followed by `initGame` gives `Opening` |
| Simulation.Game.constructor | game.js:26-34 | page load followed by the start button gives `Opening` with the game invariant |
| Simulation.Game.Start | game.js:850-888 | start and restart give `Opening` whatever the previous game was |
| Simulation.Game.Update | game.js:629-647 | one `update()` equals `Frame` and keeps the game invariant |
| Simulation.Game.NextLevel | game.js:685-696 | `nextLevel()` equals `LevelUpPart` and keeps the game invariant |
| Simulation.Game.OnMove | game.js:787-790 | a move is ignored while paused or after game over; otherwise it does what `Player.Move` does |
| Simulation.Game.OnDrill | game.js:802-806 | a drill is ignored while paused or after game over; otherwise it does what `Player.Drill` does |
| Simulation.Game.Unpause | game.js:681 | the one-second timer after a hit resumes the game |
| Simulation.Game.DrillFlashEnds | game.js:298 | the drill timer drops the drilling flag |
| Simulation.Game.DeflateTimer | game.js:451-455 | an enemy's deflate timer equals `Deflated`, whether or not the enemy is still listed |
| Simulation.Game.RemoveExploded | game.js:471-476 | the removal timer, armed only for an exploding enemy, splices the enemy out at its first position if it is listed, and keeps every other enemy |

## Left out

- Drawing (`draw` of the grid, player and enemies, `resizeCanvas`, the canvas) is not modelled. The model has no rendering.
- The DOM is not modelled: `showScreen`, `updateHUD`, `showMineralNotification`, and the screen and HUD part of `endGame`. They only display state.
- audio.js and every `audioManager` call are left out. Sound does not affect the game state.
- `requestAnimationFrame` and `cancelAnimationFrame` are left out, and the environment drives the whole frame loop by calling `Game.Update`. That includes the first `update()`, which the start and restart handlers run synchronously through `gameLoopFunction` (game.js:656-660, 867, 887). A call after game over changes nothing.
- The loop's lifetime is not modelled. `endGame` cancels the frame that is already running (game.js:700), and `gameLoopFunction` then requests the next one (game.js:660), so the loop never stops. Each restart starts one more loop, so after a restart `update()` runs several times per display frame. In the model this is only more calls to `Game.Update`.
- Randomness is not modelled. Each `Math.random` result is a parameter: `Draws`, `Spawn` and `RowDraw`. The probabilities (0.15 / 0.08 / 0.02, one half, 10 %) are not modelled.
- Enemies.Ticked: takes one `RowDraw` per enemy per frame. It uses that draw only on a step tick, as the code draws only then.
- Input wiring is not modelled: the `currentScreen` test, the key de-duplication set, the key map and the 150 ms auto-repeat interval. `Game.OnMove` and `Game.OnDrill` model one move or drill that reaches the player.
- Render-only fields are left out: `isMoving`, `animationFrame`, the tile type `'dirt'`, and the mineral name, colour and icon. The mineral's `points` are looked up from its kind.
- `PLAYER_SPEED`, `ENEMY_SPEED`, `DRILL_RANGE` and `TILE_SIZE` are left out. They are never read by the modelled code, or only by drawing.
- Simulation.Game.constructor: models page load together with the first start. `gameState.currentScreen` is not modelled.
- Players.Player.Move: the `tile` null test is always true on the board, so the model does not model it separately. Tiles are a `seq` of rows that the methods reassign, not shared tile objects, so there is no aliasing between the tiles and the rows.
- Timers are not scheduled: nothing in the model models that the unpause timer fires after one second, the drill flag after 200 ms, the deflate timer after two seconds, or the removal after 300 ms. Each timer is a method that can be called whenever it fires.
- Simulation.Game.DrillFlashEnds: clears the flag on the current player. The source's timer closes over the `Player` that drilled (game.js:298), which `nextLevel` may already have replaced; clearing the flag of a discarded player is not modelled.
