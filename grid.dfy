/**
 * The board (`Grid` in game.js): a W x H array of dug / undug tiles and the
 * list of minerals buried in it.
 *
 * The pure part states what digging and mineral generation do to the tile
 * rows and the mineral list; the class `Grid` below holds both as fields that
 * its methods reassign, and is proved against those functions.
 */
module Board {
  import opened Options
  import opened Config

  /** A mineral record: its cell, its type and whether it has been picked up. */
  datatype Mineral = Mineral(x: int, y: int, kind: MineralKind, collected: bool)

  /** The tile rows: `t[y][x]` holds when the tile at column x of row y is dug. */
  type Tiles = seq<seq<bool>>

  predicate Shaped(t: Tiles)
  {
    |t| == H && forall y :: 0 <= y < H ==> |t[y]| == W
  }

  /** The tile at (x, y) exists and is dug. */
  predicate IsDug(t: Tiles, x: int, y: int)
    requires Shaped(t)
  {
    InBounds(x, y) && t[y][x]
  }

  /** Every mineral lies on the board below row 1, and no two share a cell. */
  predicate WellPlaced(ms: seq<Mineral>)
  {
    && (forall i :: 0 <= i < |ms| ==> InBounds(ms[i].x, ms[i].y) && ms[i].y >= 2)
    && (forall i, j :: 0 <= i < j < |ms| ==> ms[i].x != ms[j].x || ms[i].y != ms[j].y)
  }

  /**
   * The board invariant: row 0 is dug, the minerals are well placed, and a
   * mineral is collected exactly when its tile is dug.
   */
  predicate BoardOk(t: Tiles, ms: seq<Mineral>)
  {
    && Shaped(t)
    && (forall x :: 0 <= x < W ==> t[0][x])
    && WellPlaced(ms)
    && (forall i :: 0 <= i < |ms| ==> (ms[i].collected <==> t[ms[i].y][ms[i].x]))
  }

  /** The level-complete test `minerals.every(m => m.collected)`. */
  predicate AllCollected(ms: seq<Mineral>)
  {
    forall i :: 0 <= i < |ms| ==> ms[i].collected
  }

  predicate Uncollected(m: Mineral, x: int, y: int)
  {
    m.x == x && m.y == y && !m.collected
  }

  /** `minerals.find(m => m.x === x && m.y === y && !m.collected)`, as an index. */
  function FindUncollected(ms: seq<Mineral>, x: int, y: int): (r: Option<nat>)
    ensures r.Some? ==> r.value < |ms| && Uncollected(ms[r.value], x, y)
    ensures r.Some? ==> forall j :: 0 <= j < r.value ==> !Uncollected(ms[j], x, y)
    ensures r.None? ==> forall j :: 0 <= j < |ms| ==> !Uncollected(ms[j], x, y)
  {
    if ms == [] then None
    else if Uncollected(ms[0], x, y) then Some(0)
    else match FindUncollected(ms[1..], x, y)
      case None => None
      case Some(i) => Some(i + 1)
  }

  /** The board after `digTile(x, y)` and the mineral it hands back. */
  datatype DigOutcome = DigOutcome(tiles: Tiles, minerals: seq<Mineral>, found: Option<Mineral>)

  /**
   * `digTile(x, y)`: a no-op returning null off the board or on a dug tile;
   * otherwise the tile becomes dug and the first uncollected mineral of the
   * cell, if any, is marked collected and returned.
   */
  function Dig(t: Tiles, ms: seq<Mineral>, x: int, y: int): (r: DigOutcome)
    requires Shaped(t)
    ensures Shaped(r.tiles) && |r.minerals| == |ms|
    ensures !InBounds(x, y) || IsDug(t, x, y) ==> r == DigOutcome(t, ms, None)
    ensures InBounds(x, y) ==> IsDug(r.tiles, x, y)
    ensures forall y', x' :: IsDug(t, x', y') ==> IsDug(r.tiles, x', y')
    ensures forall y', x' :: x' != x || y' != y ==> IsDug(r.tiles, x', y') == IsDug(t, x', y')
    ensures r.found.Some? ==> r.found.value.x == x && r.found.value.y == y && r.found.value.collected
  {
    if !InBounds(x, y) || t[y][x] then DigOutcome(t, ms, None)
    else
      var t' := t[y := t[y][x := true]];
      match FindUncollected(ms, x, y)
      case None => DigOutcome(t', ms, None)
      case Some(i) =>
        var m := ms[i].(collected := true);
        DigOutcome(t', ms[i := m], Some(m))
  }

  /** Digging keeps the board invariant. */
  lemma DigKeepsBoard(t: Tiles, ms: seq<Mineral>, x: int, y: int)
    requires BoardOk(t, ms)
    ensures BoardOk(Dig(t, ms, x, y).tiles, Dig(t, ms, x, y).minerals)
  {
    var r := Dig(t, ms, x, y);
    if InBounds(x, y) && !t[y][x] {
      forall i | 0 <= i < |ms|
        ensures r.minerals[i].collected <==> r.tiles[r.minerals[i].y][r.minerals[i].x]
      {
        assert r.minerals[i].x == ms[i].x && r.minerals[i].y == ms[i].y;
        if ms[i].x == x && ms[i].y == y {
          // the only mineral of the cell was uncollected, since the tile was undug
          assert !ms[i].collected;
          assert FindUncollected(ms, x, y) == Some(i);
        }
      }
    }
  }

  /**
   * Digging an undug tile of the board hands back exactly the mineral buried
   * in that cell, now collected, and changes no other mineral.
   */
  lemma DigCollects(t: Tiles, ms: seq<Mineral>, x: int, y: int, i: nat)
    requires BoardOk(t, ms) && InBounds(x, y) && !t[y][x]
    requires i < |ms| && ms[i].x == x && ms[i].y == y
    ensures Dig(t, ms, x, y).found == Some(ms[i].(collected := true))
    ensures Dig(t, ms, x, y).minerals == ms[i := ms[i].(collected := true)]
  {
    assert Uncollected(ms[i], x, y);
    var f := FindUncollected(ms, x, y);
    assert f.Some?;
    assert f.value == i;
  }

  /** Digging a cell with no mineral of the board hands back nothing. */
  lemma DigFindsNothing(t: Tiles, ms: seq<Mineral>, x: int, y: int)
    requires BoardOk(t, ms)
    requires forall i :: 0 <= i < |ms| ==> ms[i].x != x || ms[i].y != y
    ensures Dig(t, ms, x, y).found == None && Dig(t, ms, x, y).minerals == ms
  {
  }

  /** A cell gives up its mineral at most once: digging it again returns null. */
  lemma DigTwiceFindsNothing(t: Tiles, ms: seq<Mineral>, x: int, y: int)
    requires Shaped(t)
    ensures var r := Dig(t, ms, x, y); Dig(r.tiles, r.minerals, x, y).found == None
  {
  }

  /** On a valid board, the level is complete exactly when every mineral's tile is dug. */
  lemma LevelCompleteIffMineralsDug(t: Tiles, ms: seq<Mineral>)
    requires BoardOk(t, ms)
    ensures AllCollected(ms) <==> forall i :: 0 <= i < |ms| ==> IsDug(t, ms[i].x, ms[i].y)
  {
  }

  // ----- Board generation -----

  /**
   * The outcome of the random draw of every cell of rows 2 .. H - 1:
   * `d[y - 2][x]` is the mineral type placed at (x, y), or None.
   */
  type Draws = seq<seq<Option<MineralKind>>>

  predicate DrawsShaped(d: Draws)
  {
    |d| == H - 2 && forall r :: 0 <= r < |d| ==> |d[r]| == W
  }

  /** The minerals `generateMinerals` places for one cell: none or one. */
  function DrawnAt(draws: Draws, x: int, y: int): seq<Mineral>
    requires DrawsShaped(draws) && 0 <= x < W && 2 <= y < H
  {
    match draws[y - 2][x]
    case None => []
    case Some(k) => [Mineral(x, y, k, false)]
  }

  /**
   * The minerals placed for every cell before (x, y) in the loop order
   * (row by row from row 2, left to right).
   */
  function PlacedBefore(draws: Draws, y: int, x: int): seq<Mineral>
    requires DrawsShaped(draws)
    requires 2 <= y <= H && 0 <= x <= W && (y == H ==> x == 0)
    decreases y, x
  {
    if x == 0 then (if y == 2 then [] else PlacedBefore(draws, y - 1, W))
    else PlacedBefore(draws, y, x - 1) + DrawnAt(draws, x - 1, y)
  }

  /** The mineral list of a new board. */
  function Generated(draws: Draws): seq<Mineral>
    requires DrawsShaped(draws)
  {
    PlacedBefore(draws, H, 0)
  }

  /** The tiles of a new board: row 0 dug, everything else undug. */
  function FreshTiles(): (t: Tiles)
    ensures Shaped(t)
    ensures forall y, x :: InBounds(x, y) ==> (IsDug(t, x, y) <==> y == 0)
  {
    seq(H, y => seq(W, x => y == 0))
  }

  /** Every mineral placed before (x, y) is uncollected, on the board at row 2 or below, and before (x, y). */
  lemma {:induction false} PlacedBeforeIsWellPlaced(draws: Draws, y: int, x: int)
    requires DrawsShaped(draws)
    requires 2 <= y <= H && 0 <= x <= W && (y == H ==> x == 0)
    ensures WellPlaced(PlacedBefore(draws, y, x))
    ensures forall i :: 0 <= i < |PlacedBefore(draws, y, x)| ==>
      var m := PlacedBefore(draws, y, x)[i];
      !m.collected && (m.y < y || (m.y == y && m.x < x))
    decreases y, x
  {
    if x == 0 {
      if y > 2 {
        PlacedBeforeIsWellPlaced(draws, y - 1, W);
      }
    } else {
      PlacedBeforeIsWellPlaced(draws, y, x - 1);
      AppendAfterKeepsPlaced(PlacedBefore(draws, y, x - 1), DrawnAt(draws, x - 1, y), x - 1, y);
    }
  }

  /** Appending minerals of cell (x, y) after minerals that all come before it keeps the list well placed. */
  lemma AppendAfterKeepsPlaced(p: seq<Mineral>, d: seq<Mineral>, x: int, y: int)
    requires WellPlaced(p) && InBounds(x, y) && y >= 2
    requires forall i :: 0 <= i < |p| ==> !p[i].collected && (p[i].y < y || (p[i].y == y && p[i].x < x))
    requires |d| <= 1 && forall i :: 0 <= i < |d| ==> d[i].x == x && d[i].y == y && !d[i].collected
    ensures WellPlaced(p + d)
    ensures forall i :: 0 <= i < |p + d| ==> !(p + d)[i].collected && ((p + d)[i].y < y || ((p + d)[i].y == y && (p + d)[i].x <= x))
  {
    var s := p + d;
    forall i, j | 0 <= i < j < |s|
      ensures s[i].x != s[j].x || s[i].y != s[j].y
    {
      if j >= |p| {
        assert s[j] == d[0] && s[i] == p[i];
      }
    }
  }

  /** Mineral m is what the draw of its cell places: on rows 2 .. H - 1, uncollected, of the drawn type. */
  predicate Drawn(draws: Draws, m: Mineral)
    requires DrawsShaped(draws)
  {
    0 <= m.x < W && 2 <= m.y < H && !m.collected && draws[m.y - 2][m.x] == Some(m.kind)
  }

  /** The minerals placed before (x, y) are exactly the drawn minerals of the earlier cells. */
  lemma {:induction false} PlacedBeforeIsDrawn(draws: Draws, y: int, x: int, m: Mineral)
    requires DrawsShaped(draws)
    requires 2 <= y <= H && 0 <= x <= W && (y == H ==> x == 0)
    ensures m in PlacedBefore(draws, y, x) <==> Drawn(draws, m) && (m.y < y || (m.y == y && m.x < x))
    decreases y, x
  {
    if x == 0 {
      if y > 2 {
        PlacedBeforeIsDrawn(draws, y - 1, W, m);
      }
    } else {
      PlacedBeforeIsDrawn(draws, y, x - 1, m);
    }
  }

  /**
   * `generateMinerals` places a mineral for every cell whose draw is a
   * mineral type and for no other cell: m is in the list iff it is drawn.
   */
  lemma GeneratedIsDrawn(draws: Draws, m: Mineral)
    requires DrawsShaped(draws)
    ensures m in Generated(draws) <==> Drawn(draws, m)
  {
    PlacedBeforeIsDrawn(draws, H, 0, m);
  }

  /** A new board satisfies the board invariant; all its minerals are uncollected. */
  lemma FreshBoardOk(draws: Draws)
    requires DrawsShaped(draws)
    ensures BoardOk(FreshTiles(), Generated(draws))
    ensures forall i :: 0 <= i < |Generated(draws)| ==> !Generated(draws)[i].collected
  {
    PlacedBeforeIsWellPlaced(draws, H, 0);
  }

  // ----- The board object -----

  class Grid {
    /** `tiles[y][x]` is the dug flag of the tile at column x, row y. */
    var tiles: Tiles
    var minerals: seq<Mineral>

    ghost predicate Valid()
      reads this
    {
      BoardOk(tiles, minerals)
    }

    /** `new Grid()`: an empty grid that `Init` fills in. */
    constructor (draws: Draws)
      requires DrawsShaped(draws)
      ensures Valid()
      ensures tiles == FreshTiles() && minerals == Generated(draws)
    {
      tiles := [];
      minerals := [];
      new;
      Init(draws);
    }

    /** `init`: H rows of W undug tiles, row 0 then dug, then the minerals. */
    method Init(draws: Draws)
      requires DrawsShaped(draws)
      modifies this
      ensures Valid()
      ensures tiles == FreshTiles() && minerals == Generated(draws)
    {
      tiles := seq(H, _ => seq(W, _ => false));
      for x := 0 to W
        invariant Shaped(tiles)
        invariant forall i, j :: 0 <= i < H && 0 <= j < W ==> tiles[i][j] == (i == 0 && j < x)
      {
        tiles := tiles[0 := tiles[0][x := true]];
      }
      forall y | 0 <= y < H
        ensures tiles[y] == FreshTiles()[y]
      {
        assert forall x :: 0 <= x < W ==> tiles[y][x] == FreshTiles()[y][x];
      }
      assert tiles == FreshTiles();
      GenerateMinerals(draws);
      FreshBoardOk(draws);
    }

    /**
     * `generateMinerals`: one draw per cell of rows 2 .. H - 1, in loop
     * order; a draw of `Some(k)` places an uncollected mineral of type k.
     */
    method GenerateMinerals(draws: Draws)
      requires DrawsShaped(draws)
      modifies this`minerals
      ensures minerals == Generated(draws)
    {
      minerals := [];
      var y := 2;
      while y < H
        invariant 2 <= y <= H
        invariant minerals == PlacedBefore(draws, y, 0)
      {
        var x := 0;
        while x < W
          invariant 0 <= x <= W
          invariant minerals == PlacedBefore(draws, y, x)
        {
          match draws[y - 2][x] {
            case Some(k) =>
              minerals := minerals + [Mineral(x, y, k, false)];
            case None =>
          }
          x := x + 1;
        }
        y := y + 1;
      }
    }

    /** `getTile(x, y)`: null off the board, else the tile (here its dug flag). */
    function GetTile(x: int, y: int): (t: Option<bool>)
      reads this
      requires Valid()
      ensures t.None? <==> !InBounds(x, y)
      ensures t == Some(true) <==> IsDug(tiles, x, y)
    {
      if x < 0 || x >= W || y < 0 || y >= H then None else Some(tiles[y][x])
    }

    /** `digTile(x, y)`, proved against `Dig`. */
    method DigTile(x: int, y: int) returns (found: Option<Mineral>)
      requires Valid()
      modifies this
      ensures Valid()
      ensures var r := Dig(old(tiles), old(minerals), x, y);
        tiles == r.tiles && minerals == r.minerals && found == r.found
    {
      found := None;
      var tile := GetTile(x, y);
      DigKeepsBoard(tiles, minerals, x, y);
      if tile == Some(false) {
        tiles := tiles[y := tiles[y][x := true]];
        var i := FindUncollected(minerals, x, y);
        if i.Some? {
          minerals := minerals[i.value := minerals[i.value].(collected := true)];
          found := Some(minerals[i.value]);
        }
      }
    }
  }
}
