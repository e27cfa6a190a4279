/**
 * The level catalogue and the grid queries of Space Station Siege
 * (project.py:115-233): a fixed list of 15 x 15 grids of cell codes,
 * the level bounds, and the point-in-wall test that the player, the
 * enemies and both kinds of bullet use.
 */
module Levels {

  datatype Option<T> = None | Some(value: T)

  function Min(a: int, b: int): int { if a <= b then a else b }
  function Max(a: int, b: int): int { if a >= b then a else b }
  function MaxReal(a: real, b: real): real { if a >= b then a else b }
  function MinReal(a: real, b: real): real { if a <= b then a else b }
  function Square(r: real): real { r * r }

  /** Squared Euclidean distance in the horizontal plane. */
  function DistSq(x1: real, y1: real, x2: real, y2: real): real
  {
    Square(x1 - x2) + Square(y1 - y2)
  }

  /** Side of one grid cell in world units. */
  const CELL_SIZE: real := 100.0

  /** Cell codes: 0 = empty floor, 1 = wall, 2 = socket of a repairable system. */
  const EMPTY := 0
  const WALL := 1
  const SOCKET := 2
  type Code = c: int | 0 <= c <= 2

  /** Every layout of the catalogue is 15 cells wide and 15 cells high. */
  const GRID_WIDTH := 15
  const GRID_HEIGHT := 15
  type Row = r: seq<Code> | |r| == GRID_WIDTH witness seq(GRID_WIDTH, _ => EMPTY)
  type Layout = g: seq<Row> | |g| == GRID_HEIGHT witness seq<Row>(GRID_HEIGHT, _ => FLOOR_ROW)
  const FLOOR_ROW: Row := seq(GRID_WIDTH, _ => EMPTY)

  /** Levels are numbered from 1. */
  type LevelNumber = n: int | 1 <= n witness 1

  /** Level 1: an open area with 2 systems (project.py:118-135). */
  const LEVEL_1: Layout := [
    [1, 1, 1, 1, 1, 1, 1, 1, 1, 1, 1, 1, 1, 1, 1],
    [1, 0, 0, 0, 0, 0, 0, 0, 0, 0, 0, 0, 0, 0, 1],
    [1, 0, 0, 0, 0, 0, 0, 0, 0, 0, 0, 0, 0, 0, 1],
    [1, 0, 0, 0, 0, 0, 0, 0, 0, 0, 0, 0, 0, 0, 1],
    [1, 0, 0, 2, 0, 0, 1, 1, 1, 0, 0, 0, 0, 0, 1],
    [1, 0, 0, 0, 0, 0, 1, 0, 0, 0, 0, 0, 0, 0, 1],
    [1, 0, 0, 0, 0, 0, 0, 0, 1, 0, 0, 0, 0, 0, 1],
    [1, 0, 0, 0, 0, 0, 0, 0, 0, 0, 0, 0, 0, 0, 1],
    [1, 0, 0, 0, 0, 0, 0, 0, 0, 0, 0, 0, 0, 0, 1],
    [1, 0, 0, 0, 0, 0, 1, 0, 0, 0, 0, 2, 0, 0, 1],
    [1, 0, 0, 0, 0, 0, 1, 1, 1, 0, 0, 0, 0, 0, 1],
    [1, 0, 0, 0, 0, 0, 0, 0, 0, 0, 0, 0, 0, 0, 1],
    [1, 0, 0, 0, 0, 0, 0, 0, 0, 0, 0, 0, 0, 0, 1],
    [1, 0, 0, 0, 0, 0, 0, 0, 0, 0, 0, 0, 0, 0, 1],
    [1, 1, 1, 1, 1, 1, 1, 1, 1, 1, 1, 1, 1, 1, 1]
  ]

  /** Level 2: a complex layout with 3 systems (project.py:136-153). */
  const LEVEL_2: Layout := [
    [1, 1, 1, 1, 1, 1, 1, 1, 1, 1, 1, 1, 1, 1, 1],
    [1, 0, 0, 0, 0, 0, 0, 1, 0, 0, 0, 0, 0, 0, 1],
    [1, 0, 1, 1, 1, 0, 0, 1, 0, 0, 2, 0, 1, 0, 1],
    [1, 0, 1, 0, 0, 0, 0, 1, 0, 0, 0, 0, 1, 0, 1],
    [1, 0, 1, 0, 1, 1, 0, 1, 1, 1, 1, 0, 1, 0, 1],
    [1, 0, 0, 0, 1, 0, 0, 0, 0, 0, 1, 0, 0, 0, 1],
    [1, 0, 1, 0, 1, 0, 1, 1, 1, 0, 1, 1, 1, 0, 1],
    [1, 0, 1, 0, 1, 0, 0, 2, 0, 0, 0, 0, 0, 0, 1],
    [1, 0, 1, 0, 1, 1, 1, 1, 1, 0, 1, 1, 1, 0, 1],
    [1, 0, 0, 0, 0, 0, 0, 0, 1, 0, 0, 0, 0, 0, 1],
    [1, 1, 1, 1, 1, 0, 1, 0, 1, 1, 1, 1, 0, 1, 1],
    [1, 0, 0, 0, 0, 0, 1, 0, 0, 0, 0, 0, 0, 0, 1],
    [1, 0, 2, 0, 1, 0, 1, 1, 1, 1, 1, 0, 1, 0, 1],
    [1, 0, 0, 0, 1, 0, 0, 0, 0, 0, 0, 0, 1, 0, 1],
    [1, 1, 1, 1, 1, 1, 1, 1, 1, 1, 1, 1, 1, 1, 1]
  ]

  /** Level 3: a maze with 3 systems (project.py:154-171). */
  const LEVEL_3: Layout := [
    [1, 1, 1, 1, 1, 1, 1, 1, 1, 1, 1, 1, 1, 1, 1],
    [1, 0, 0, 0, 1, 0, 0, 0, 1, 0, 0, 0, 0, 0, 1],
    [1, 0, 1, 0, 1, 1, 1, 0, 1, 0, 1, 1, 1, 0, 1],
    [1, 0, 1, 0, 0, 0, 1, 0, 1, 0, 1, 0, 0, 0, 1],
    [1, 0, 1, 1, 1, 0, 1, 0, 1, 0, 1, 0, 1, 1, 1],
    [1, 0, 0, 0, 1, 0, 0, 0, 1, 0, 0, 0, 1, 0, 1],
    [1, 1, 1, 0, 1, 1, 1, 0, 1, 1, 1, 0, 1, 0, 1],
    [1, 2, 0, 0, 0, 0, 1, 0, 0, 0, 1, 0, 0, 0, 1],
    [1, 1, 1, 1, 1, 0, 1, 1, 1, 0, 1, 1, 1, 0, 1],
    [1, 0, 0, 0, 1, 0, 0, 0, 0, 0, 1, 0, 0, 0, 1],
    [1, 0, 1, 0, 1, 1, 1, 1, 1, 0, 1, 0, 1, 1, 1],
    [1, 0, 1, 0, 0, 0, 0, 0, 1, 0, 1, 0, 0, 2, 1],
    [1, 0, 1, 1, 1, 1, 1, 0, 1, 1, 1, 1, 1, 0, 1],
    [1, 0, 0, 0, 0, 0, 0, 0, 0, 0, 0, 0, 0, 0, 1],
    [1, 1, 1, 1, 1, 1, 1, 1, 1, 1, 1, 1, 1, 1, 1]
  ]

  /** LEVEL_LAYOUTS (project.py:117-172). */
  const LAYOUTS: seq<Layout> := [LEVEL_1, LEVEL_2, LEVEL_3]

  /** The number of layouts in LAYOUTS (len(LEVEL_LAYOUTS)), written out so that proofs about the level number need not unfold the catalogue. */
  const NUM_LEVELS := 3

  /** A level past the end of the catalogue uses the last layout. */
  function LayoutIndex(level: LevelNumber): (i: nat)
    ensures i < NUM_LEVELS
    ensures level <= NUM_LEVELS ==> i == level - 1
    ensures level > NUM_LEVELS ==> i == NUM_LEVELS - 1
  {
    Min(level - 1, NUM_LEVELS - 1)
  }

  function LayoutOf(level: LevelNumber): Layout
  {
    LAYOUTS[LayoutIndex(level)]
  }

  /** Number of rows and columns of a layout, as the source computes them. */
  function Rows(g: Layout): nat { |g| }
  function Cols(g: Layout): nat { |g[0]| }

  datatype Bounds = Bounds(minX: real, maxX: real, minY: real, maxY: real)

  /**
   * get_level_bounds: the rectangle of a layout, its columns and rows times
   * the cell size. Every query below takes the current level's layout
   * (LayoutOf(level)) rather than the level number.
   */
  function LevelBounds(g: Layout): (b: Bounds)
    ensures b == Bounds(0.0, 1500.0, 0.0, 1500.0)
  {
    Bounds(0.0, Cols(g) as real * CELL_SIZE, 0.0, Rows(g) as real * CELL_SIZE)
  }

  predicate InBounds(g: Layout, x: real, y: real)
  {
    var b := LevelBounds(g);
    b.minX <= x < b.maxX && b.minY <= y < b.maxY
  }

  /** Python's int() of a float: truncation toward zero. */
  function Trunc(r: real): (t: int)
    ensures 0.0 <= r ==> t as real <= r < t as real + 1.0
    ensures r < 0.0 ==> t as real - 1.0 < r <= t as real
  {
    if r >= 0.0 then r.Floor else -((-r).Floor)
  }

  /** The grid column (or row) that a world coordinate falls in. */
  function CellIndex(coord: real): int
  {
    Trunc(coord / CELL_SIZE)
  }

  /** World coordinate of the centre of column (or row) c. */
  function CellCentre(c: int): real
  {
    c as real * CELL_SIZE + CELL_SIZE / 2.0
  }

  /** The code of the cell containing a point inside the level. */
  function CodeAt(g: Layout, x: real, y: real): (c: Code)
    requires InBounds(g, x, y)
    ensures 0 <= CellIndex(x) < GRID_WIDTH && 0 <= CellIndex(y) < GRID_HEIGHT
    ensures c == g[CellIndex(y)][CellIndex(x)]
  {
    g[CellIndex(y)][CellIndex(x)]
  }

  /**
   * The point-in-wall test (project.py:220-233): every point outside the
   * level is wall; inside, exactly the points of code-1 cells are, so empty
   * cells and system sockets can be walked on.
   */
  predicate IsWall(g: Layout, x: real, y: real)
    ensures !InBounds(g, x, y) ==> IsWall(g, x, y)
    ensures InBounds(g, x, y) ==> (IsWall(g, x, y) <==> CodeAt(g, x, y) == WALL)
  {
    if !InBounds(g, x, y) then true
    else
      var cx := CellIndex(x);
      var cy := CellIndex(y);
      if 0 <= cy < Rows(g) && 0 <= cx < Cols(g) then g[cy][cx] == WALL else true
  }

  /**
   * The centre of grid cell (c, r) lies inside the level and in that very
   * cell, so it is a wall exactly when the cell's code is 1.
   */
  lemma CentreInCell(g: Layout, c: int, r: int)
    requires 0 <= c < GRID_WIDTH && 0 <= r < GRID_HEIGHT
    ensures InBounds(g, CellCentre(c), CellCentre(r))
    ensures CellIndex(CellCentre(c)) == c && CellIndex(CellCentre(r)) == r
    ensures CodeAt(g, CellCentre(c), CellCentre(r)) == g[r][c]
    ensures IsWall(g, CellCentre(c), CellCentre(r)) <==> g[r][c] == WALL
  {
    CentreIndex(c);
    CentreIndex(r);
  }

  lemma CentreIndex(c: int)
    requires 0 <= c
    ensures CellIndex(CellCentre(c)) == c
  {
    var q := CellCentre(c) / CELL_SIZE;
    assert q == c as real + 0.5;
    assert q.Floor == c;
  }
}
