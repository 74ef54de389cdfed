/**
 * Enemies (`Enemy` in game.js): horizontal patrols through dug tunnels, the
 * inflate / explode state machine driven by the player's drill, and the
 * collision and inflate-range tests.
 *
 * `EnemyView` is the value of an enemy's fields; the spec functions `Inflated`,
 * `Deflated` and `Ticked` say what one `inflate`, one deflate timer and one
 * `update` do to it, and the class `Enemy` is proved against them.
 */
module Enemies {
  import opened Options
  import opened Config
  import opened Board
  import opened State

  /** The fields of an enemy; `deflateArmed` is true while a deflate timer is pending. */
  datatype EnemyView = EnemyView(
    kind: DangerKind,
    x: int,
    y: int,
    direction: int,
    moveCounter: int,
    inflateLevel: int,
    deflateArmed: bool,
    isExploding: bool,
    explosionFrame: int)

  /**
   * The enemy invariant: on the board and never in row 0, travelling left or
   * right, inflate level in [0, 4], exploding exactly at level 4, and a deflate
   * timer pending only at levels 1 to 3.
   */
  predicate ViewOk(v: EnemyView)
  {
    && InBounds(v.x, v.y) && v.y >= 1
    && (v.direction == 1 || v.direction == -1)
    && v.moveCounter >= 0
    && 0 <= v.inflateLevel <= 4
    && (v.isExploding <==> v.inflateLevel == 4)
    && (v.deflateArmed ==> 1 <= v.inflateLevel <= 3)
    && v.explosionFrame >= 0
  }

  // ----- Creation -----

  /**
   * The random draws of one enemy of `initGame`: its type, its cell (a column
   * of the board and a row in 3 .. H - 3) and its initial direction.
   */
  datatype Spawn = Spawn(kind: DangerKind, x: int, y: int, direction: int)

  predicate SpawnOk(s: Spawn)
  {
    0 <= s.x < W && 3 <= s.y <= H - 3 && (s.direction == 1 || s.direction == -1)
  }

  /** A newly constructed enemy. */
  function Spawned(s: Spawn): (v: EnemyView)
    requires SpawnOk(s)
    ensures ViewOk(v) && v.inflateLevel == 0 && !v.isExploding && !v.deflateArmed
    ensures v.kind == s.kind && v.x == s.x && v.y == s.y && v.direction == s.direction
  {
    EnemyView(s.kind, s.x, s.y, s.direction, 0, 0, false, false, 0)
  }

  // ----- The inflate / explode state machine -----

  /**
   * `inflate()`: a no-op at level 4; otherwise the level goes up by one, the
   * pending deflate timer is cancelled, and either the enemy explodes (level
   * 4) or a new deflate timer is armed.
   */
  function Inflated(v: EnemyView): (w: EnemyView)
    requires ViewOk(v)
    ensures ViewOk(w)
    ensures v.inflateLevel == 4 ==> w == v
    ensures v.inflateLevel < 4 ==> w.inflateLevel == v.inflateLevel + 1
    ensures (w.isExploding && !v.isExploding) <==> v.inflateLevel == 3
    ensures w.kind == v.kind && w.x == v.x && w.y == v.y && w.direction == v.direction
    ensures w.moveCounter == v.moveCounter && w.explosionFrame == v.explosionFrame
    ensures v.inflateLevel < 3 ==> w.deflateArmed
    ensures v.inflateLevel >= 3 ==> !w.deflateArmed
  {
    if v.inflateLevel < 4 then
      var level := v.inflateLevel + 1;
      if level == 4 then v.(inflateLevel := level, deflateArmed := false, isExploding := true)
      else v.(inflateLevel := level, deflateArmed := true)
    else v
  }

  /** The score that one `inflate()` adds: the enemy's points when it explodes. */
  function InflateAward(v: EnemyView): nat
  {
    if v.inflateLevel == 3 then DangerPoints(v.kind) else 0
  }

  /**
   * The deflate timer firing: the level goes down by one when it is above 0.
   * A timer that `inflate()` cancelled never fires, so a view without a
   * pending timer is left alone.
   */
  function Deflated(v: EnemyView): (w: EnemyView)
    requires ViewOk(v)
    ensures ViewOk(w) && !w.deflateArmed
    ensures v.deflateArmed ==> w.inflateLevel == v.inflateLevel - 1
    ensures !v.deflateArmed ==> w == v
    ensures w.inflateLevel <= v.inflateLevel && w.isExploding == v.isExploding
  {
    if !v.deflateArmed then v
    else if v.inflateLevel > 0 then v.(inflateLevel := v.inflateLevel - 1, deflateArmed := false)
    else v.(deflateArmed := false)
  }

  /**
   * Below level 3 an inflate arms a fresh deflate timer, and that timer firing
   * undoes it: the enemy is back where it was, with no timer pending.
   */
  lemma DeflateUndoesInflate(v: EnemyView)
    requires ViewOk(v) && v.inflateLevel < 3
    ensures Deflated(Inflated(v)) == v.(deflateArmed := false)
  {
  }

  /** What can happen to an enemy's inflation: a drill hit or a deflate timer. */
  datatype Stimulus = Pump | Decay

  function Stimulate(v: EnemyView, s: Stimulus): EnemyView
    requires ViewOk(v)
  {
    match s
    case Pump => Inflated(v)
    case Decay => Deflated(v)
  }

  function StimulusAward(v: EnemyView, s: Stimulus): nat
  {
    if s == Pump then InflateAward(v) else 0
  }

  /** The enemy after a run of stimuli, in order. */
  function Run(v: EnemyView, ss: seq<Stimulus>): EnemyView
    requires ViewOk(v)
    decreases |ss|
  {
    if ss == [] then v else Run(Stimulate(v, ss[0]), ss[1..])
  }

  /** The score the run of stimuli adds. */
  function RunAward(v: EnemyView, ss: seq<Stimulus>): nat
    requires ViewOk(v)
    decreases |ss|
  {
    if ss == [] then 0 else StimulusAward(v, ss[0]) + RunAward(Stimulate(v, ss[0]), ss[1..])
  }

  /**
   * Over any run of inflates and deflates the invariant holds (the level
   * stays in [0, 4]), level 4 is never left, and the explosion is paid
   * exactly once: the run adds the enemy's points iff it reaches level 4.
   */
  lemma {:induction false} RunKeepsPhase(v: EnemyView, ss: seq<Stimulus>)
    requires ViewOk(v)
    ensures ViewOk(Run(v, ss))
    ensures v.inflateLevel == 4 ==> Run(v, ss).inflateLevel == 4
    ensures RunAward(v, ss) ==
      if v.inflateLevel < 4 && Run(v, ss).inflateLevel == 4 then DangerPoints(v.kind) else 0
    decreases |ss|
  {
    if ss != [] {
      RunKeepsPhase(Stimulate(v, ss[0]), ss[1..]);
    }
  }

  // ----- Movement -----

  /** The 10% row-change draw of one step tick: none, one row down or one row up. */
  datatype RowDraw = NoShift | ShiftDown | ShiftUp

  /**
   * One `update()`: an exploding enemy only advances its animation frame;
   * otherwise the counter advances and, on a step tick, the enemy steps into
   * the dug cell ahead or turns around, then may shift one row into a dug
   * cell strictly below row 0.
   */
  function Ticked(v: EnemyView, t: Tiles, row: RowDraw): (w: EnemyView)
    requires ViewOk(v) && Shaped(t)
    ensures ViewOk(w)
  {
    if v.isExploding then v.(explosionFrame := v.explosionFrame + 1)
    else
      var counter := v.moveCounter + 1;
      if !StepDue(v.kind, counter, v.inflateLevel > 0) then v.(moveCounter := counter)
      else
        var nx := v.x + v.direction;
        var stepped := IsDug(t, nx, v.y) && nx >= 0 && nx < W;
        var x := if stepped then nx else v.x;
        var direction := if stepped then v.direction else -v.direction;
        var y := match row
          case NoShift => v.y
          case ShiftDown => RowShift(t, x, v.y, v.y + 1)
          case ShiftUp => RowShift(t, x, v.y, v.y - 1);
        v.(moveCounter := 0, x := x, y := y, direction := direction)
  }

  /**
   * What one `update()` does: an exploding enemy only counts frames; between
   * step ticks only the counter moves; on a step tick the enemy moves one cell
   * along its direction exactly when that cell is dug and turns around
   * otherwise, and any row change is by one row into a dug cell. Inflation
   * state never changes.
   */
  lemma TickedMoves(v: EnemyView, t: Tiles, row: RowDraw)
    requires ViewOk(v) && Shaped(t)
    ensures var w := Ticked(v, t, row);
      && w.kind == v.kind && w.inflateLevel == v.inflateLevel
      && w.deflateArmed == v.deflateArmed && w.isExploding == v.isExploding
      && (v.isExploding ==> w == v.(explosionFrame := v.explosionFrame + 1))
      && (!v.isExploding && !StepDue(v.kind, v.moveCounter + 1, v.inflateLevel > 0) ==>
        w == v.(moveCounter := v.moveCounter + 1))
      && (!v.isExploding && StepDue(v.kind, v.moveCounter + 1, v.inflateLevel > 0) ==>
        && w.moveCounter == 0
        && (w.x == v.x + v.direction <==> IsDug(t, v.x + v.direction, v.y))
        && (w.x == v.x <==> !IsDug(t, v.x + v.direction, v.y))
        && w.direction == (if w.x == v.x then -v.direction else v.direction)
        && (w.y == v.y || (IsDug(t, w.x, w.y) && (w.y == v.y + 1 || w.y == v.y - 1)))
        && (row == NoShift ==> w.y == v.y)
        && (row == ShiftDown ==> w.y == if IsDug(t, w.x, v.y + 1) then v.y + 1 else v.y)
        && (row == ShiftUp ==> w.y == if IsDug(t, w.x, v.y - 1) && v.y - 1 > 0 then v.y - 1 else v.y))
  {
  }

  /** The row after an attempted shift from `y` to `ny` in column x. */
  function RowShift(t: Tiles, x: int, y: int, ny: int): int
    requires Shaped(t)
  {
    if IsDug(t, x, ny) && ny > 0 && ny < H then ny else y
  }

  // ----- Collision and inflate range -----

  function Abs(n: int): nat
  {
    if n < 0 then -n else n
  }

  /**
   * `checkCollision`: both offsets below half a cell (doubled to stay in
   * integers). On cell coordinates this is exactly "same cell".
   */
  function CheckCollision(v: EnemyView, px: int, py: int): (r: bool)
    ensures r <==> v.x == px && v.y == py
  {
    2 * Abs(v.x - px) < 1 && 2 * Abs(v.y - py) < 1
  }

  /**
   * `isInInflateRange`: within distance 1.5 (compared squared, times four:
   * 4 * (dx^2 + dy^2) <= 9) and ahead of the player along its facing with a
   * perpendicular offset below half a cell. On cell coordinates this is
   * exactly "on the cell the player faces".
   */
  function IsInInflateRange(v: EnemyView, px: int, py: int, facing: Direction): (r: bool)
    ensures r <==> v.x == px + DX(facing) && v.y == py + DY(facing)
  {
    var dx := v.x - px;
    var dy := v.y - py;
    if 4 * (dx * dx + dy * dy) > 9 then false
    else
      match facing
      case Up => dy < 0 && 2 * Abs(dx) < 1
      case Down => dy > 0 && 2 * Abs(dx) < 1
      case Left => dx < 0 && 2 * Abs(dy) < 1
      case Right => dx > 0 && 2 * Abs(dy) < 1
  }

  // ----- The enemy object -----

  /** No enemy object appears twice in the list. */
  predicate Distinct(es: seq<Enemy>)
  {
    forall i, j :: 0 <= i < j < |es| ==> es[i] != es[j]
  }

  ghost predicate AllValid(es: seq<Enemy>)
    reads es
  {
    forall k :: 0 <= k < |es| ==> es[k].Valid()
  }

  /** The field values of a list of enemies. */
  ghost function Views(es: seq<Enemy>): (vs: seq<EnemyView>)
    reads es
    ensures |vs| == |es| && forall k :: 0 <= k < |es| ==> vs[k] == es[k].View()
  {
    seq(|es|, k requires 0 <= k < |es| reads es => es[k].View())
  }

  class Enemy {
    const kind: DangerKind
    var x: int
    var y: int
    var direction: int
    var moveCounter: int
    var inflateLevel: int
    /** A deflate timer is pending (the `inflateTimer` of game.js, while not yet fired or cleared). */
    var deflateArmed: bool
    var isExploding: bool
    var explosionFrame: int

    function View(): EnemyView
      reads this
    {
      EnemyView(kind, x, y, direction, moveCounter, inflateLevel, deflateArmed, isExploding, explosionFrame)
    }

    ghost predicate Valid()
      reads this
    {
      ViewOk(View())
    }

    /** `new Enemy(type, x, y)`, with the direction draw passed in. */
    constructor (s: Spawn)
      requires SpawnOk(s)
      ensures Valid() && View() == Spawned(s)
    {
      kind, x, y, direction := s.kind, s.x, s.y, s.direction;
      moveCounter, inflateLevel := 0, 0;
      deflateArmed, isExploding, explosionFrame := false, false, 0;
    }

    /** `inflate()`, proved against `Inflated`; an explosion adds the enemy's points to the score. */
    method Inflate(gs: GameState)
      requires Valid()
      modifies this, gs`score
      ensures Valid() && View() == Inflated(old(View()))
      ensures gs.score == old(gs.score) + InflateAward(old(View()))
    {
      if inflateLevel < 4 {
        inflateLevel := inflateLevel + 1;
        deflateArmed := false;
        if inflateLevel == 4 {
          Explode(gs);
        } else {
          deflateArmed := true;
        }
      }
    }

    /** `explode()`: the enemy starts exploding and its points go to the score. */
    method Explode(gs: GameState)
      modifies this`isExploding, gs`score
      ensures isExploding
      ensures gs.score == old(gs.score) + DangerPoints(kind)
    {
      isExploding := true;
      gs.score := gs.score + DangerPoints(kind);
    }

    /** The deflate timer armed by `inflate()` firing, proved against `Deflated`. */
    method Deflate()
      requires Valid()
      modifies this
      ensures Valid() && View() == Deflated(old(View()))
    {
      if deflateArmed {
        deflateArmed := false;
        if inflateLevel > 0 {
          inflateLevel := inflateLevel - 1;
        }
      }
    }

    /** `update()`, proved against `Ticked`; the row draw is used only on a step tick. */
    method Update(g: Grid, row: RowDraw)
      requires Valid() && g.Valid()
      modifies this
      ensures Valid() && View() == Ticked(old(View()), g.tiles, row)
    {
      if isExploding {
        explosionFrame := explosionFrame + 1;
        return;
      }
      var counter := moveCounter + 1;
      if !StepDue(kind, counter, inflateLevel > 0) {
        moveCounter := counter;
        return;
      }
      // the board lookups come first; the fields are then written together
      var nx := x + direction;
      var tile := g.GetTile(nx, y);
      var newX, newDirection := x, -direction;
      if tile == Some(true) && nx >= 0 && nx < W {
        newX, newDirection := nx, direction;
      }
      var newY := y;
      if row != NoShift {
        var ny := y + (if row == ShiftDown then 1 else -1);
        var tileY := g.GetTile(newX, ny);
        if tileY == Some(true) && ny > 0 && ny < H {
          newY := ny;
        }
      }
      x, y, direction, moveCounter := newX, newY, newDirection, 0;
    }
  }
}
