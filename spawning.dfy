/**
 * Level loading and the spawn director (project.py:244-399): where the
 * player starts, which repairable systems a layout holds, how many enemies
 * of each type a level asks for, and the bounded random search for a spawn
 * cell. The random cell samples are an oracle `cells`, whose n-th value is
 * the n-th (column, row) pair that random.randint would return.
 */
module Spawning {
  import opened Levels
  import opened Entities

  const SPAWN_ATTEMPTS := 100
  /** CELL_SIZE * 4 (project.py:364). */
  const MIN_SPAWN_DISTANCE: real := 400.0

  /** One sample of random.randint(0, cols - 1) and random.randint(0, rows - 1). */
  datatype CellDraw = CellDraw(col: int, row: int)

  predicate OnGrid(d: CellDraw)
  {
    0 <= d.col < GRID_WIDTH && 0 <= d.row < GRID_HEIGHT
  }

  /** random.randint never leaves its range. */
  ghost predicate DrawsOnGrid(cells: nat -> CellDraw)
  {
    forall n: nat :: OnGrid(cells(n))
  }

  /** Empty floor whose centre is at least four cells from the player. */
  predicate SpawnOk(g: Layout, px: real, py: real, d: CellDraw)
    requires OnGrid(d)
  {
    && g[d.row][d.col] == EMPTY
    && DistSq(px, py, CellCentre(d.col), CellCentre(d.row)) >= Square(MIN_SPAWN_DISTANCE)
  }

  /** An enemy that sits at the centre of empty floor, far enough from (px, py), at full health. */
  predicate WellPlaced(g: Layout, px: real, py: real, e: Enemy)
  {
    var c := CellIndex(e.x);
    var r := CellIndex(e.y);
    && 0 <= c < GRID_WIDTH && 0 <= r < GRID_HEIGHT
    && e.x == CellCentre(c) && e.y == CellCentre(r)
    && g[r][c] == EMPTY
    && DistSq(px, py, e.x, e.y) >= Square(MIN_SPAWN_DISTANCE)
    && e.health == Info(e.kind).health
  }

  // ---------------------------------------------------------------------
  // spawn_enemy (project.py:356-393)

  /** The first sample with index in [from, end) that is a valid spawn cell. */
  function FirstSpawn(g: Layout, px: real, py: real, cells: nat -> CellDraw, from: nat, end: nat): (r: Option<nat>)
    requires DrawsOnGrid(cells)
    ensures r.Some? ==> from <= r.value < end && SpawnOk(g, px, py, cells(r.value))
    decreases end - from
  {
    if end <= from then None
    else if SpawnOk(g, px, py, cells(from)) then Some(from)
    else FirstSpawn(g, px, py, cells, from + 1, end)
  }

  /** The search skips only unusable samples: none before the one found, and none at all when it finds nothing. */
  lemma {:induction false} FirstSpawnSkips(g: Layout, px: real, py: real, cells: nat -> CellDraw, from: nat, end: nat)
    requires DrawsOnGrid(cells)
    ensures var r := FirstSpawn(g, px, py, cells, from, end);
      && (r.Some? ==> forall n :: from <= n < r.value ==> !SpawnOk(g, px, py, cells(n)))
      && (r.None? ==> forall n :: from <= n < end ==> !SpawnOk(g, px, py, cells(n)))
    decreases end - from
  {
    if from < end && !SpawnOk(g, px, py, cells(from)) {
      FirstSpawnSkips(g, px, py, cells, from + 1, end);
    }
  }

  /** The enemy a call of spawn_enemy adds, if any, and the index of the next unused sample. */
  datatype SpawnResult = SpawnResult(enemy: Option<Enemy>, next: nat)

  function SpawnOutcome(g: Layout, px: real, py: real, kind: EnemyKind, cells: nat -> CellDraw, from: nat): SpawnResult
    requires DrawsOnGrid(cells)
  {
    match FirstSpawn(g, px, py, cells, from, from + SPAWN_ATTEMPTS)
    case Some(n) => SpawnResult(Some(NewEnemy(kind, CellCentre(cells(n).col), CellCentre(cells(n).row))), n + 1)
    case None => SpawnResult(None, from + SPAWN_ATTEMPTS)
  }

  predicate SpawnSound(g: Layout, px: real, py: real, kind: EnemyKind, cells: nat -> CellDraw, from: nat, s: SpawnResult)
    requires DrawsOnGrid(cells)
  {
    && from < s.next <= from + SPAWN_ATTEMPTS
    && (s.enemy.Some? ==> s.enemy.value.kind == kind && WellPlaced(g, px, py, s.enemy.value)
                          && !IsWall(g, s.enemy.value.x, s.enemy.value.y)
                          && s.enemy.value.z == Info(kind).altitude
                          && s.enemy.value.lastShotTime == 0.0 && s.enemy.value.lastContactTime == 0.0)
    && (s.enemy.None? ==>
          && s.next == from + SPAWN_ATTEMPTS
          && forall n :: from <= n < from + SPAWN_ATTEMPTS ==> !SpawnOk(g, px, py, cells(n)))
  }

  /**
   * A spawn draws at most 100 samples, and an enemy it places is of the
   * requested type, well placed, not inside a wall, at its type's altitude
   * and with no shot or contact yet; it fails only after
   * 100 unusable samples.
   */
  lemma SpawnOutcomeSound(g: Layout, px: real, py: real, kind: EnemyKind, cells: nat -> CellDraw, from: nat)
    requires DrawsOnGrid(cells)
    ensures SpawnSound(g, px, py, kind, cells, from, SpawnOutcome(g, px, py, kind, cells, from))
  {
    FirstSpawnSkips(g, px, py, cells, from, from + SPAWN_ATTEMPTS);
    match FirstSpawn(g, px, py, cells, from, from + SPAWN_ATTEMPTS)
    case Some(n) =>
      CentreInCell(g, cells(n).col, cells(n).row);
    case None =>
  }

  /**
   * The retry loop of spawn_enemy: up to 100 attempts, each drawing one
   * column and one row; an empty cell far enough from the player ends it.
   */
  method TrySpawn(g: Layout, px: real, py: real, kind: EnemyKind, cells: nat -> CellDraw, from: nat)
    returns (enemy: Option<Enemy>, next: nat)
    requires DrawsOnGrid(cells)
    ensures SpawnResult(enemy, next) == SpawnOutcome(g, px, py, kind, cells, from)
  {
    var attempts := 0;
    while attempts < SPAWN_ATTEMPTS
      invariant 0 <= attempts <= SPAWN_ATTEMPTS
      invariant FirstSpawn(g, px, py, cells, from, from + SPAWN_ATTEMPTS)
             == FirstSpawn(g, px, py, cells, from + attempts, from + SPAWN_ATTEMPTS)
    {
      var d := cells(from + attempts);
      attempts := attempts + 1;
      if SpawnOk(g, px, py, d) {
        return Some(NewEnemy(kind, CellCentre(d.col), CellCentre(d.row))), from + attempts;
      }
    }
    return None, from + SPAWN_ATTEMPTS;
  }

  // ---------------------------------------------------------------------
  // Level-scaled spawn counts (project.py:305-316)

  /** n copies of one enemy type (none when n is zero or negative). */
  function Repeat(kind: EnemyKind, n: int): (s: seq<EnemyKind>)
    decreases n
  {
    if n <= 0 then [] else [kind] + Repeat(kind, n - 1)
  }

  /**
   * The sequence of spawn_enemy calls a level load makes: the spawn_count
   * dictionary of reset_level, in its iteration order.
   */
  function SpawnPlan(level: LevelNumber): seq<EnemyKind>
  {
    Repeat(Scout, 2 + level) + Repeat(Tank, level - 1) + Repeat(Sniper, level - 2) + Repeat(Drone, level * 2)
  }

  lemma {:induction false} RepeatCount(kind: EnemyKind, n: int, other: EnemyKind)
    ensures multiset(Repeat(kind, n))[other] == if other == kind then Max(0, n) else 0
    ensures |Repeat(kind, n)| == Max(0, n)
    decreases n
  {
    if n > 0 {
      RepeatCount(kind, n - 1, other);
      assert Repeat(kind, n) == [kind] + Repeat(kind, n - 1);
    }
  }

  /**
   * A level asks for 2 + level scouts, level - 1 tanks, level - 2 snipers
   * and 2 * level drones (a negative count spawns none).
   */
  lemma SpawnPlanCounts(level: LevelNumber)
    ensures multiset(SpawnPlan(level))[Scout] == 2 + level
    ensures multiset(SpawnPlan(level))[Tank] == Max(0, level - 1)
    ensures multiset(SpawnPlan(level))[Sniper] == Max(0, level - 2)
    ensures multiset(SpawnPlan(level))[Drone] == 2 * level
    ensures |SpawnPlan(level)| == 2 + level + Max(0, level - 1) + Max(0, level - 2) + 2 * level
  {
    PlanCount(level, Scout);
    PlanCount(level, Tank);
    PlanCount(level, Sniper);
    PlanCount(level, Drone);
  }

  lemma PlanCount(level: LevelNumber, k: EnemyKind)
    ensures multiset(SpawnPlan(level))[k] ==
      match k
      case Scout => 2 + level
      case Tank => Max(0, level - 1)
      case Sniper => Max(0, level - 2)
      case Drone => 2 * level
    ensures |SpawnPlan(level)| == 2 + level + Max(0, level - 1) + Max(0, level - 2) + 2 * level
  {
    RepeatCount(Scout, 2 + level, k);
    RepeatCount(Tank, level - 1, k);
    RepeatCount(Sniper, level - 2, k);
    RepeatCount(Drone, level * 2, k);
    ConcatCount(Repeat(Scout, 2 + level), Repeat(Tank, level - 1), Repeat(Sniper, level - 2), Repeat(Drone, level * 2), k);
  }

  /** Counting in a plan of four parts is counting in each part. */
  lemma ConcatCount(s1: seq<EnemyKind>, s2: seq<EnemyKind>, s3: seq<EnemyKind>, s4: seq<EnemyKind>, k: EnemyKind)
    ensures multiset(s1 + s2 + s3 + s4)[k] == multiset(s1)[k] + multiset(s2)[k] + multiset(s3)[k] + multiset(s4)[k]
    ensures |s1 + s2 + s3 + s4| == |s1| + |s2| + |s3| + |s4|
  {
    assert multiset(s1 + s2 + s3 + s4) == multiset(s1) + multiset(s2) + multiset(s3) + multiset(s4);
  }

  /** A later level never asks for fewer enemies of any type. */
  lemma SpawnPlanGrows(level: LevelNumber, later: LevelNumber, kind: EnemyKind)
    requires level <= later
    ensures multiset(SpawnPlan(level))[kind] <= multiset(SpawnPlan(later))[kind]
  {
    SpawnPlanCounts(level);
    SpawnPlanCounts(later);
  }

  /** All the enemies of a plan, spawned one after the other from sample `from` on. */
  datatype SpawnBatch = SpawnBatch(enemies: seq<Enemy>, next: nat)

  /** The enemy a spawn produced, as a list of zero or one. */
  function Spawned(s: SpawnResult): seq<Enemy>
  {
    if s.enemy.Some? then [s.enemy.value] else []
  }

  function SpawnAll(g: Layout, px: real, py: real, plan: seq<EnemyKind>, cells: nat -> CellDraw, from: nat): (b: SpawnBatch)
    requires DrawsOnGrid(cells)
    decreases |plan|
  {
    if plan == [] then SpawnBatch([], from)
    else
      var s := SpawnOutcome(g, px, py, plan[0], cells, from);
      var rest := SpawnAll(g, px, py, plan[1..], cells, s.next);
      SpawnBatch(Spawned(s) + rest.enemies, rest.next)
  }

  /** One spawn of a plan, then the rest after it, with the enemies in that order. */
  lemma SpawnAllFront(g: Layout, px: real, py: real, plan: seq<EnemyKind>, cells: nat -> CellDraw, from: nat, before: seq<Enemy>)
    requires DrawsOnGrid(cells) && plan != []
    ensures var s := SpawnOutcome(g, px, py, plan[0], cells, from);
      var rest := SpawnAll(g, px, py, plan[1..], cells, s.next);
      && before + SpawnAll(g, px, py, plan, cells, from).enemies == (before + Spawned(s)) + rest.enemies
      && SpawnAll(g, px, py, plan, cells, from).next == rest.next
  {
    var s := SpawnOutcome(g, px, py, plan[0], cells, from);
    var rest := SpawnAll(g, px, py, plan[1..], cells, s.next);
    assert SpawnAll(g, px, py, plan, cells, from) == SpawnBatch(Spawned(s) + rest.enemies, rest.next);
    assert before + (Spawned(s) + rest.enemies) == (before + Spawned(s)) + rest.enemies;
  }

  /** Every enemy is well placed with respect to (px, py), alive and outside the walls. */
  predicate AllWellPlaced(g: Layout, px: real, py: real, es: seq<Enemy>)
  {
    forall i :: 0 <= i < |es| ==>
      WellPlaced(g, px, py, es[i]) && es[i].health > 0 && !IsWall(g, es[i].x, es[i].y)
  }

  /**
   * A level load creates at most one enemy per planned spawn, each well
   * placed with respect to the player's start and alive, and uses at most
   * 100 samples per planned spawn.
   */
  lemma {:induction false} SpawnAllSound(g: Layout, px: real, py: real, plan: seq<EnemyKind>, cells: nat -> CellDraw, from: nat)
    requires DrawsOnGrid(cells)
    ensures |SpawnAll(g, px, py, plan, cells, from).enemies| <= |plan|
    ensures from <= SpawnAll(g, px, py, plan, cells, from).next <= from + SPAWN_ATTEMPTS * |plan|
    ensures AllWellPlaced(g, px, py, SpawnAll(g, px, py, plan, cells, from).enemies)
    decreases |plan|
  {
    if plan != [] {
      var s := SpawnOutcome(g, px, py, plan[0], cells, from);
      SpawnOutcomeSound(g, px, py, plan[0], cells, from);
      SpawnAllSound(g, px, py, plan[1..], cells, s.next);
    }
  }

  // ---------------------------------------------------------------------
  // The player's start cell (project.py:261-272)

  /** The first empty column at index c or later. */
  function ScanRow(row: Row, c: nat): (col: Option<nat>)
    requires c <= GRID_WIDTH
    ensures col.Some? ==> c <= col.value < GRID_WIDTH && row[col.value] == EMPTY
    decreases GRID_WIDTH - c
  {
    if c == GRID_WIDTH then None
    else if row[c] == EMPTY then Some(c)
    else ScanRow(row, c + 1)
  }

  /** The row scan passes over non-empty cells only. */
  lemma {:induction false} ScanRowSkips(row: Row, c: nat)
    requires c <= GRID_WIDTH
    ensures var col := ScanRow(row, c);
      && (col.Some? ==> forall k :: c <= k < col.value ==> row[k] != EMPTY)
      && (col.None? ==> forall k :: c <= k < GRID_WIDTH ==> row[k] != EMPTY)
    decreases GRID_WIDTH - c
  {
    if c < GRID_WIDTH && row[c] != EMPTY {
      ScanRowSkips(row, c + 1);
    }
  }

  /** The first empty cell, in row-major order, of the rows from r on. */
  function ScanRows(g: Layout, r: nat): (pos: Option<CellDraw>)
    requires r <= GRID_HEIGHT
    ensures pos.Some? ==> OnGrid(pos.value) && r <= pos.value.row && g[pos.value.row][pos.value.col] == EMPTY
    decreases GRID_HEIGHT - r
  {
    if r == GRID_HEIGHT then None
    else
      match ScanRow(g[r], 0)
      case Some(c) => Some(CellDraw(c, r))
      case None => ScanRows(g, r + 1)
  }

  /** The scan from row r on passes over non-empty cells only, in reading order. */
  lemma {:induction false} ScanRowsSkips(g: Layout, r: nat)
    requires r <= GRID_HEIGHT
    ensures var pos := ScanRows(g, r);
      && (pos.Some? ==> forall rr, c :: r <= rr < pos.value.row && 0 <= c < GRID_WIDTH ==> g[rr][c] != EMPTY)
      && (pos.Some? ==> forall c :: 0 <= c < pos.value.col ==> g[pos.value.row][c] != EMPTY)
      && (pos.None? ==> forall rr, c :: r <= rr < GRID_HEIGHT && 0 <= c < GRID_WIDTH ==> g[rr][c] != EMPTY)
    decreases GRID_HEIGHT - r
  {
    if r < GRID_HEIGHT {
      ScanRowSkips(g[r], 0);
      if ScanRow(g[r], 0).None? {
        ScanRowsSkips(g, r + 1);
      }
    }
  }

  function FirstEmpty(g: Layout): Option<CellDraw>
  {
    ScanRows(g, 0)
  }

  /**
   * Where reset_level puts the player: the centre of the first empty cell in
   * row-major order, or the middle of the level when there is none.
   */
  function StartPosition(g: Layout): (p: Vec2)
  {
    match FirstEmpty(g)
    case Some(d) => Vec2(CellCentre(d.col), CellCentre(d.row))
    case None => Vec2(Cols(g) as real * CELL_SIZE / 2.0, Rows(g) as real * CELL_SIZE / 2.0)
  }

  /** p is the centre of an empty cell, and every cell before it in reading order is not empty. */
  predicate IsFirstEmptyCentre(g: Layout, p: Vec2)
  {
    var c := CellIndex(p.x);
    var r := CellIndex(p.y);
    && 0 <= c < GRID_WIDTH && 0 <= r < GRID_HEIGHT
    && p == Vec2(CellCentre(c), CellCentre(r))
    && g[r][c] == EMPTY
    && (forall rr, cc :: 0 <= rr < GRID_HEIGHT && 0 <= cc < GRID_WIDTH && (rr < r || (rr == r && cc < c)) ==> g[rr][cc] != EMPTY)
  }

  /**
   * When a layout has an empty cell, the start position is the centre of an
   * empty cell (so not inside a wall) and every cell before it, in reading
   * order, is a wall or a socket.
   */
  lemma StartIsFirstEmpty(g: Layout)
    requires exists r, c :: 0 <= r < GRID_HEIGHT && 0 <= c < GRID_WIDTH && g[r][c] == EMPTY
    ensures IsFirstEmptyCentre(g, StartPosition(g))
    ensures !IsWall(g, StartPosition(g).x, StartPosition(g).y)
  {
    var pos := FirstEmpty(g);
    ScanRowsSkips(g, 0);
    if pos.None? {
      assert false;
    }
    CentreInCell(g, pos.value.col, pos.value.row);
  }

  /**
   * The player's start as reset_level places it: the centre of the cell the
   * search found, or the middle of the level when it found none.
   */
  method FindStartPosition(g: Layout) returns (p: Vec2)
    ensures p == StartPosition(g)
  {
    var found := FindStart(g);
    if found.Some? {
      p := Vec2(CellCentre(found.value.col), CellCentre(found.value.row));
    } else {
      p := Vec2(Cols(g) as real * CELL_SIZE / 2.0, Rows(g) as real * CELL_SIZE / 2.0);
    }
  }

  /** The nested search loop of reset_level for the start cell. */
  method FindStart(g: Layout) returns (pos: Option<CellDraw>)
    ensures pos == FirstEmpty(g)
  {
    var r := 0;
    while r < Rows(g)
      invariant 0 <= r <= GRID_HEIGHT
      invariant FirstEmpty(g) == ScanRows(g, r)
    {
      var c := 0;
      while c < Cols(g) && g[r][c] != EMPTY
        invariant 0 <= c <= GRID_WIDTH
        invariant ScanRow(g[r], 0) == ScanRow(g[r], c)
      {
        c := c + 1;
      }
      if c < Cols(g) {
        return Some(CellDraw(c, r));
      }
      r := r + 1;
    }
    return None;
  }

  // ---------------------------------------------------------------------
  // The repairable systems of a layout (project.py:293-303)

  function SystemAt(c: int, r: int): RepairSystem
  {
    RepairSystem(CellCentre(c), CellCentre(r), false)
  }

  /** The systems of the first n cells of row r. */
  function RowSockets(row: Row, r: int, n: nat): seq<RepairSystem>
    requires n <= GRID_WIDTH
  {
    if n == 0 then []
    else RowSockets(row, r, n - 1) + (if row[n - 1] == SOCKET then [SystemAt(n - 1, r)] else [])
  }

  /** The systems of the first m rows. */
  function GridSockets(g: Layout, m: nat): seq<RepairSystem>
    requires m <= GRID_HEIGHT
  {
    if m == 0 then [] else GridSockets(g, m - 1) + RowSockets(g[m - 1], m - 1, GRID_WIDTH)
  }

  /** One unrepaired system per code-2 cell, in reading order. */
  function SocketSystems(g: Layout): seq<RepairSystem>
  {
    GridSockets(g, GRID_HEIGHT)
  }

  /** The system s stands at the centre of a code-2 cell of g. */
  predicate OnSocket(g: Layout, s: RepairSystem)
  {
    var c := CellIndex(s.x);
    var r := CellIndex(s.y);
    0 <= c < GRID_WIDTH && 0 <= r < GRID_HEIGHT && s == SystemAt(c, r) && g[r][c] == SOCKET
  }

  /** Reading order on system positions: by row, then by column. */
  predicate Before(a: RepairSystem, b: RepairSystem)
  {
    a.y < b.y || (a.y == b.y && a.x < b.x)
  }

  /** Every system of s stands on a socket of g. */
  predicate AllOnSockets(g: Layout, s: seq<RepairSystem>)
  {
    forall i :: 0 <= i < |s| ==> OnSocket(g, s[i])
  }

  /** The systems of s are strictly increasing in reading order. */
  predicate Ordered(s: seq<RepairSystem>)
  {
    forall i, j :: 0 <= i < j < |s| ==> Before(s[i], s[j])
  }

  lemma {:induction false} RowSocketsFacts(g: Layout, r: nat, n: nat)
    requires r < GRID_HEIGHT && n <= GRID_WIDTH
    ensures AllOnSockets(g, RowSockets(g[r], r, n))
    ensures Ordered(RowSockets(g[r], r, n))
    ensures forall i :: 0 <= i < |RowSockets(g[r], r, n)| ==>
      RowSockets(g[r], r, n)[i].y == CellCentre(r) && RowSockets(g[r], r, n)[i].x < CellCentre(n)
    ensures forall c :: 0 <= c < n && g[r][c] == SOCKET ==> SystemAt(c, r) in RowSockets(g[r], r, n)
  {
    if n > 0 {
      RowSocketsFacts(g, r, n - 1);
      assert CellCentre(n - 1) < CellCentre(n);
      if g[r][n - 1] == SOCKET {
        CentreIndex(n - 1);
        CentreIndex(r);
        var sys := SystemAt(n - 1, r);
        assert OnSocket(g, sys);
        var prev := RowSockets(g[r], r, n - 1);
        assert RowSockets(g[r], r, n) == prev + [sys];
        forall i | 0 <= i < |prev| ensures Before(prev[i], sys) {
          assert prev[i].y == sys.y;
        }
      }
    }
  }

  lemma {:induction false} GridSocketsFacts(g: Layout, m: nat)
    requires m <= GRID_HEIGHT
    ensures AllOnSockets(g, GridSockets(g, m))
    ensures Ordered(GridSockets(g, m))
    ensures forall i :: 0 <= i < |GridSockets(g, m)| ==> GridSockets(g, m)[i].y < CellCentre(m)
    ensures forall r, c :: 0 <= r < m && 0 <= c < GRID_WIDTH && g[r][c] == SOCKET ==> SystemAt(c, r) in GridSockets(g, m)
  {
    if m > 0 {
      GridSocketsFacts(g, m - 1);
      RowSocketsFacts(g, m - 1, GRID_WIDTH);
      var a := GridSockets(g, m - 1);
      var b := RowSockets(g[m - 1], m - 1, GRID_WIDTH);
      assert GridSockets(g, m) == a + b;
      assert CellCentre(m - 1) < CellCentre(m);
      forall i, j | 0 <= i < j < |a + b|
        ensures Before((a + b)[i], (a + b)[j])
      {
        if j >= |a| && i < |a| {
          assert (a + b)[i] == a[i] && (a + b)[j] == b[j - |a|];
        }
      }
    }
  }

  /**
   * reset_level creates exactly one unrepaired system per code-2 cell: every
   * system stands on a socket, every socket has one, and no two systems
   * share a position (they are strictly ordered by reading order).
   */
  lemma SocketSystemsExact(g: Layout)
    ensures AllOnSockets(g, SocketSystems(g))
    ensures forall i :: 0 <= i < |SocketSystems(g)| ==> !SocketSystems(g)[i].repaired
    ensures forall r, c :: 0 <= r < GRID_HEIGHT && 0 <= c < GRID_WIDTH && g[r][c] == SOCKET ==> SystemAt(c, r) in SocketSystems(g)
    ensures Ordered(SocketSystems(g))
  {
    GridSocketsFacts(g, GRID_HEIGHT);
  }

  /** The nested loops of reset_level that append one system per code-2 cell. */
  method CollectSystems(g: Layout) returns (systems: seq<RepairSystem>)
    ensures systems == SocketSystems(g)
  {
    systems := [];
    var y := 0;
    while y < Rows(g)
      invariant 0 <= y <= GRID_HEIGHT
      invariant systems == GridSockets(g, y)
    {
      var x := 0;
      while x < Cols(g)
        invariant 0 <= x <= GRID_WIDTH
        invariant systems == GridSockets(g, y) + RowSockets(g[y], y, x)
      {
        if g[y][x] == SOCKET {
          systems := systems + [SystemAt(x, y)];
        }
        x := x + 1;
      }
      y := y + 1;
    }
  }
}
