/**
 * The player (`Player` in game.js): cell position, facing, moving with
 * automatic digging, drilling the faced cell and inflating the enemies there,
 * and mineral collection, the only place score and counters change on pickup.
 */
module Players {
  import opened Options
  import opened Config
  import opened Board
  import opened State
  import opened Enemies

  /**
   * `move`'s facing update: the first of dx > 0, dx < 0, dy > 0, dy < 0 that
   * holds; unchanged for (0, 0). For a unit step the new facing points along it.
   */
  function Facing(dx: int, dy: int, d: Direction): (r: Direction)
    ensures dx == 0 && dy == 0 ==> r == d
    ensures (dx == 0) != (dy == 0) && -1 <= dx <= 1 && -1 <= dy <= 1 ==> DX(r) == dx && DY(r) == dy
  {
    if dx > 0 then Right
    else if dx < 0 then Left
    else if dy > 0 then Down
    else if dy < 0 then Up
    else d
  }

  /** The tally after `digTile` handed back `found`: credited when it is a mineral. */
  function CreditFound(t: Tally, found: Option<Mineral>): Tally
  {
    match found
    case None => t
    case Some(m) => Credit(t, m.kind)
  }

  /** One enemy after a drill from (px, py) facing `facing`: inflated when it is in inflate range. */
  function PumpOne(v: EnemyView, px: int, py: int, facing: Direction): (w: EnemyView)
    requires ViewOk(v)
    ensures ViewOk(w)
    ensures w == if v.x == px + DX(facing) && v.y == py + DY(facing) then Inflated(v) else v
  {
    if IsInInflateRange(v, px, py, facing) then Inflated(v) else v
  }

  /** The score one enemy adds during that drill: its points when the inflate makes it explode. */
  function AwardOne(v: EnemyView, px: int, py: int, facing: Direction): (a: nat)
    ensures a == if v.x == px + DX(facing) && v.y == py + DY(facing) && v.inflateLevel == 3 then DangerPoints(v.kind) else 0
  {
    if IsInInflateRange(v, px, py, facing) then InflateAward(v) else 0
  }

  /** The enemies after the drill, each handled by `PumpOne`. */
  function Pumped(vs: seq<EnemyView>, px: int, py: int, facing: Direction): (ws: seq<EnemyView>)
    requires forall k :: 0 <= k < |vs| ==> ViewOk(vs[k])
    ensures |ws| == |vs|
    ensures forall k :: 0 <= k < |vs| ==> ViewOk(ws[k])
  {
    seq(|vs|, k requires 0 <= k < |vs| => PumpOne(vs[k], px, py, facing))
  }

  /** The score the drill's inflates add, summed over the enemies in list order. */
  function PumpAward(vs: seq<EnemyView>, px: int, py: int, facing: Direction): nat
    decreases |vs|
  {
    if vs == [] then 0
    else PumpAward(vs[..|vs| - 1], px, py, facing) + AwardOne(vs[|vs| - 1], px, py, facing)
  }

  /** What a drill can change: the board, the enemies' fields and the tally. */
  datatype Scene = Scene(tiles: Tiles, minerals: seq<Mineral>, enemies: seq<EnemyView>, tally: Tally)

  ghost function SceneOf(g: Grid, es: seq<Enemy>, gs: GameState): Scene
    reads g, es, gs
  {
    Scene(g.tiles, g.minerals, Views(es), gs.Counts())
  }

  predicate SceneOk(s: Scene)
  {
    Shaped(s.tiles) && forall k :: 0 <= k < |s.enemies| ==> ViewOk(s.enemies[k])
  }

  /** The digging half of `drill()`: the faced cell is dug and any mineral found is credited. */
  function DigPart(s: Scene, px: int, py: int, facing: Direction): Scene
    requires SceneOk(s)
  {
    var r := Dig(s.tiles, s.minerals, px + DX(facing), py + DY(facing));
    s.(tiles := r.tiles, minerals := r.minerals, tally := CreditFound(s.tally, r.found))
  }

  /** The inflating half of `drill()`: the enemies in range are inflated and their awards paid. */
  function PumpPart(s: Scene, px: int, py: int, facing: Direction): Scene
    requires SceneOk(s)
  {
    s.(enemies := Pumped(s.enemies, px, py, facing),
       tally := s.tally.(score := s.tally.score + PumpAward(s.enemies, px, py, facing)))
  }

  class Player {
    var x: int
    var y: int
    var direction: Direction
    /** Presentation flag shown for a moment after a drill. */
    var isDrilling: bool

    ghost predicate Valid()
      reads this
    {
      InBounds(x, y)
    }

    /** `new Player()`: at the spawn cell, facing down. */
    constructor ()
      ensures Valid() && x == SpawnX && y == SpawnY && direction == Down && !isDrilling
    {
      x, y := SpawnX, SpawnY;
      direction := Down;
      isDrilling := false;
    }

    /**
     * `move(dx, dy)`: off the board nothing changes and the result is false;
     * otherwise the target is dug if needed (crediting any mineral found),
     * the player steps there, faces the step and the result is true.
     */
    method Move(g: Grid, gs: GameState, dx: int, dy: int) returns (moved: bool)
      requires Valid() && g.Valid()
      modifies this`x, this`y, this`direction, g
      modifies gs`score, gs`copper, gs`gold, gs`rareEarth
      ensures Valid() && g.Valid()
      ensures moved <==> InBounds(old(x) + dx, old(y) + dy)
      ensures !moved ==> unchanged(this, g, gs)
      ensures moved ==>
        && x == old(x) + dx && y == old(y) + dy
        && direction == Facing(dx, dy, old(direction))
        && var r := Dig(old(g.tiles), old(g.minerals), x, y);
        && g.tiles == r.tiles && g.minerals == r.minerals
        && gs.Counts() == CreditFound(old(gs.Counts()), r.found)
    {
      var newX, newY := x + dx, y + dy;
      if newX < 0 || newX >= W || newY < 0 || newY >= H {
        return false;
      }
      // on the board `getTile` never returns null
      var tile := g.GetTile(newX, newY);
      if tile == Some(false) {
        var mineral := g.DigTile(newX, newY);
        if mineral.Some? {
          CollectMineral(gs, mineral.value);
        }
      }
      x, y := newX, newY;
      direction := Facing(dx, dy, direction);
      return true;
    }

    /**
     * `drill()`: digs the cell the player faces (a no-op off the board or on
     * a dug tile), inflates every enemy in inflate range, in list order, and
     * raises the drilling flag.
     */
    method Drill(g: Grid, es: seq<Enemy>, gs: GameState)
      requires Valid() && g.Valid() && Distinct(es) && AllValid(es)
      modifies this`isDrilling, g, es
      modifies gs`score, gs`copper, gs`gold, gs`rareEarth
      ensures Valid() && g.Valid() && AllValid(es) && isDrilling
      ensures SceneOf(g, es, gs) == PumpPart(DigPart(old(SceneOf(g, es, gs)), x, y, direction), x, y, direction)
    {
      DigFaced(g, es, gs);
      InflateFaced(g, es, gs);
      isDrilling := true;
    }

    method DigFaced(g: Grid, es: seq<Enemy>, gs: GameState)
      requires g.Valid() && AllValid(es)
      modifies g, gs`score, gs`copper, gs`gold, gs`rareEarth
      ensures g.Valid() && AllValid(es)
      ensures SceneOf(g, es, gs) == DigPart(old(SceneOf(g, es, gs)), x, y, direction)
    {
      var found := DigAndCollect(g, gs, x + DX(direction), y + DY(direction));
    }

    /** `digTile` on (tx, ty), then `collectMineral` on what it hands back. */
    method DigAndCollect(g: Grid, gs: GameState, tx: int, ty: int) returns (found: Option<Mineral>)
      requires g.Valid()
      modifies g, gs`score, gs`copper, gs`gold, gs`rareEarth
      ensures g.Valid()
      ensures var r := Dig(old(g.tiles), old(g.minerals), tx, ty);
        && g.tiles == r.tiles && g.minerals == r.minerals && found == r.found
        && gs.Counts() == CreditFound(old(gs.Counts()), r.found)
    {
      found := g.DigTile(tx, ty);
      if found.Some? {
        CollectMineral(gs, found.value);
      }
    }

    /** The `enemies.forEach` of `drill()`: each enemy in inflate range, in list order, is inflated. */
    method InflateFaced(g: Grid, es: seq<Enemy>, gs: GameState)
      requires Distinct(es) && AllValid(es) && Shaped(g.tiles)
      modifies es, gs`score
      ensures AllValid(es)
      ensures SceneOf(g, es, gs) == PumpPart(old(SceneOf(g, es, gs)), x, y, direction)
    {
      InflateInRange(es, gs);
    }

    /** The loop of `enemies.forEach`, proved against `Pumped` and `PumpAward`. */
    method InflateInRange(es: seq<Enemy>, gs: GameState)
      requires Distinct(es) && AllValid(es)
      modifies es, gs`score
      ensures AllValid(es)
      ensures Views(es) == Pumped(old(Views(es)), x, y, direction)
      ensures gs.score == old(gs.score) + PumpAward(old(Views(es)), x, y, direction)
    {
      ghost var before := Views(es);
      for i := 0 to |es|
        invariant forall k :: 0 <= k < |es| ==>
          es[k].Valid() && es[k].View() == if k < i then PumpOne(before[k], x, y, direction) else before[k]
        invariant gs.score == old(gs.score) + PumpAward(before[..i], x, y, direction)
      {
        assert before[..i + 1][..i] == before[..i];
        InflateIfInRange(es[i], gs);
      }
      assert before[..|es|] == before;
      ghost var after := Pumped(before, x, y, direction);
      assert forall k :: 0 <= k < |es| ==> Views(es)[k] == after[k];
    }

    /** The body of that loop for one enemy: `if (enemy.isInInflateRange(this)) enemy.inflate()`. */
    method InflateIfInRange(e: Enemy, gs: GameState)
      requires e.Valid()
      modifies e, gs`score
      ensures e.Valid() && e.View() == PumpOne(old(e.View()), x, y, direction)
      ensures gs.score == old(gs.score) + AwardOne(old(e.View()), x, y, direction)
    {
      if IsInInflateRange(e.View(), x, y, direction) {
        e.Inflate(gs);
      }
    }

    /** `collectMineral(m)`: the mineral's points and its type's counter are credited. */
    method CollectMineral(gs: GameState, m: Mineral)
      modifies gs`score, gs`copper, gs`gold, gs`rareEarth
      ensures gs.Counts() == Credit(old(gs.Counts()), m.kind)
    {
      gs.score := gs.score + MineralPoints(m.kind);
      match m.kind {
        case Copper => gs.copper := gs.copper + 1;
        case Gold => gs.gold := gs.gold + 1;
        case RareEarth => gs.rareEarth := gs.rareEarth + 1;
      }
    }

    /** The 200 ms timer armed by `drill()`: the drilling flag drops. */
    method StopDrilling()
      modifies this`isDrilling
      ensures !isDrilling
    {
      isDrilling := false;
    }
  }
}
