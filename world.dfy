/**
 * The game state of Space Station Siege as one object: the globals of
 * project.py (player, entity lists, level, score, points, phase flags,
 * repair state, frame clock) become the fields of World, and the
 * functions that update them become its methods. Randomness comes from
 * two oracles fixed when the world is built: `cells(n)` is the n-th cell
 * sample of the spawn director and `drops(n)` the n-th powerup type; the
 * world counts how many of each it has used.
 */
module Game {
  import opened Levels
  import opened Entities
  import opened Spawning
  import opened Passes
  import opened Repairs
  import opened Phases

  /**
   * What a frame takes from the input devices and from the numerics the
   * model leaves out: whether the repair key is held, the player's step
   * for this frame, and one Steering per enemy. The step is taken as
   * given; in the source it is zero when the movement keys cancel out and
   * PLAYER_SPEED * dt long in the camera's direction otherwise, and the
   * model does not constrain it.
   */
  datatype FrameInput = FrameInput(repairHeld: bool, step: Vec2, steer: seq<Steering>)

  /**
   * Where update_player leaves the player before the repair logic: slid
   * along the walls by the step, or in place while a repair is going on.
   */
  function Moved(g: Layout, p: Player, st: RepairState, step: Vec2): Player
  {
    var m := if st.Idle? then SlideMove(g, p.x, p.y, step.x, step.y) else Vec2(p.x, p.y);
    p.(x := m.x, y := m.y)
  }

  /** The completion check after a repair tick: it runs only when the tick finished a repair. */
  function Completed(ss: seq<RepairSystem>, o: RepairStep, level: int, start: Completion): Completion
  {
    if o.finished.Some? then CompleteLevel(AfterTick(ss, o), level, start) else start
  }

  /** The largest frame time the idle loop lets through. */
  const MAX_DT: real := 0.05

  /** A catalogue of one layout per level, each with floor at cell (1, 1), so that a start cell always exists. */
  ghost predicate CatalogueOk(ls: seq<Layout>)
  {
    |ls| == NUM_LEVELS && forall i :: 0 <= i < |ls| ==> ls[i][1][1] == EMPTY
  }

  /** LEVEL_LAYOUTS is such a catalogue. */
  lemma CatalogueHasFloor()
    ensures CatalogueOk(LAYOUTS)
  {
    assert LAYOUTS[0][1][1] == EMPTY && LAYOUTS[1][1][1] == EMPTY && LAYOUTS[2][1][1] == EMPTY;
  }

  /** The player's start is on the floor of the layout, outside every wall. */
  lemma StartIsFloor(g: Layout)
    requires g[1][1] == EMPTY
    ensures !IsWall(g, StartPosition(g).x, StartPosition(g).y)
  {
    StartIsFirstEmpty(g);
  }

  /** Enemies well placed around a point are alive and outside the walls. */
  lemma WellPlacedIsClear(g: Layout, px: real, py: real, es: seq<Enemy>)
    requires AllWellPlaced(g, px, py, es)
    ensures AllAlive(es) && EnemiesClear(g, es)
  {
  }

  /** The systems of a list stand, in order, on the sockets of the layout; only their flags may differ. */
  predicate OnLayoutSockets(g: Layout, ss: seq<RepairSystem>)
  {
    && |ss| == |SocketSystems(g)|
    && forall i :: 0 <= i < |ss| ==> ss[i] == SocketSystems(g)[i].(repaired := ss[i].repaired)
  }

  /** Every player bullet of the list is outside the walls. */
  predicate BulletsClear(g: Layout, bs: seq<Bullet>)
  {
    forall i :: 0 <= i < |bs| ==> !IsWall(g, bs[i].x, bs[i].y)
  }

  /** The part of the world that loading a level sets. */
  datatype LevelState = LevelState(
    player: Player, systems: seq<RepairSystem>, enemies: seq<Enemy>, cellDraws: nat,
    bullets: seq<Bullet>, enemyBullets: seq<EnemyBullet>, powerups: seq<Powerup>,
    repair: RepairState, phase: Phase)

  class World {
    var level: LevelNumber
    var phase: Phase
    var score: int
    /** points_available: what the upgrade shop can spend. */
    var points: int
    var player: Player
    var enemies: seq<Enemy>
    var bullets: seq<Bullet>
    var enemyBullets: seq<EnemyBullet>
    var powerups: seq<Powerup>
    var systems: seq<RepairSystem>
    var repair: RepairState
    var lastFrameTime: real
    /** How many cell samples and powerup samples have been used. */
    var cellDraws: nat
    var dropDraws: nat
    const cells: nat -> CellDraw
    const drops: nat -> PowerupKind
    /** The catalogue of level layouts, LEVEL_LAYOUTS. */
    const layouts: seq<Layout>
    /** The layout of the current level; past the catalogue, the last one (get_level_bounds clamps the index). */
    function Grid(): Layout
      reads this
      requires |layouts| == NUM_LEVELS
    {
      layouts[LayoutIndex(level)]
    }

    /**
     * The invariant of the game state: stats in range, counters not
     * negative, every enemy alive, the systems on the layout's sockets, a
     * repair only on an unrepaired system, nothing but the level's own
     * floor under the player, the enemies and the bullets, a level past the
     * catalogue only after the win, and a player with no health only once
     * the game is over.
     */
    ghost predicate Valid()
      reads this
    {
      && DrawsOnGrid(cells)
      && CatalogueOk(layouts)
      && PlayerOk(player)
      && score >= 0 && points >= 0
      && AllAlive(enemies)
      && OnLayoutSockets(Grid(), systems)
      && RepairOk(systems, repair)
      && !IsWall(Grid(), player.x, player.y)
      && EnemiesClear(Grid(), enemies)
      && BulletsClear(Grid(), bullets)
      && ShotsClear(Grid(), enemyBullets)
      && (level > NUM_LEVELS ==> phase == GameOver)
      && (player.health == 0 ==> phase == GameOver)
    }

    /**
     * What reset_level leaves behind, given the player and the cell-sample
     * counter before it: the player at the start cell on the ground with a
     * full magazine, one unrepaired system per socket, the level's enemies
     * spawned one after another around the start, no bullets, no powerups,
     * no repair, and the level in play.
     */
    ghost predicate Loaded(p: Player, draws: nat)
      reads this
      requires DrawsOnGrid(cells) && CatalogueOk(layouts)
    {
      LevelView() == FreshLevel(p, draws)
    }

    /** The fields that loading a level sets. */
    function LevelView(): LevelState
      reads this
    {
      LevelState(player, systems, enemies, cellDraws, bullets, enemyBullets, powerups, repair, phase)
    }

    /** Those fields as reset_level sets them, from the player and the cell-sample counter before it. */
    ghost function FreshLevel(p: Player, draws: nat): LevelState
      reads this
      requires DrawsOnGrid(cells) && CatalogueOk(layouts)
    {
      var start := StartPosition(Grid());
      var batch := SpawnAll(Grid(), start.x, start.y, SpawnPlan(level), cells, draws);
      LevelState(p.(x := start.x, y := start.y, z := 0.0, ammo := p.maxAmmo), SocketSystems(Grid()),
                 batch.enemies, batch.next, [], [], [], Idle, Playing)
    }

    /** Everything but the level, the phase, the points and the player stays as it was. */
    twostate predicate KeptBesideMeta()
      reads this
    {
      && score == old(score) && enemies == old(enemies) && bullets == old(bullets)
      && enemyBullets == old(enemyBullets) && powerups == old(powerups) && systems == old(systems)
      && repair == old(repair) && lastFrameTime == old(lastFrameTime)
      && cellDraws == old(cellDraws) && dropDraws == old(dropDraws)
    }

    /** The level, the score, the points, the clock and the powerup samples stay as they were. */
    twostate predicate Kept()
      reads this
    {
      && level == old(level) && score == old(score) && points == old(points)
      && lastFrameTime == old(lastFrameTime) && dropDraws == old(dropDraws)
    }

    /** The game as main() starts it: reset_game at time `now`. */
    constructor (cellSamples: nat -> CellDraw, dropSamples: nat -> PowerupKind, now: real)
      requires DrawsOnGrid(cellSamples)
      ensures cells == cellSamples && drops == dropSamples && layouts == LAYOUTS
      ensures Valid()
      ensures level == 1 && score == 0 && points == 0 && lastFrameTime == now && dropDraws == 0
      ensures Loaded(INITIAL_PLAYER, 0)
    {
      cells := cellSamples;
      drops := dropSamples;
      level := 1;
      phase := Playing;
      score := 0;
      points := 0;
      player := INITIAL_PLAYER;
      enemies := [];
      bullets := [];
      enemyBullets := [];
      powerups := [];
      systems := [];
      repair := Idle;
      lastFrameTime := now;
      cellDraws := 0;
      dropDraws := 0;
      layouts := LAYOUTS;
      CatalogueHasFloor();
      new;
      ResetGame(now);
    }

    /**
     * reset_game (project.py:319-353): a fresh player, level 1, no score, no
     * points, the clock restarted at `now`, then the level loaded.
     */
    method ResetGame(now: real)
      modifies this
      requires DrawsOnGrid(cells) && CatalogueOk(layouts)
      ensures Valid()
      ensures level == 1 && score == 0 && points == 0 && lastFrameTime == now && dropDraws == old(dropDraws)
      ensures Loaded(INITIAL_PLAYER, old(cellDraws))
    {
      player, level, score, phase, points, lastFrameTime := INITIAL_PLAYER, 1, 0, Playing, 0, now;
      LoadLevel();
    }

    /**
     * reset_level (project.py:244-316): a level past the catalogue restarts
     * the game; any other is loaded, keeping the player's stats but
     * refilling the magazine.
     */
    method ResetLevel(now: real)
      modifies this
      requires DrawsOnGrid(cells) && CatalogueOk(layouts)
      requires level <= NUM_LEVELS ==> PlayerOk(player) && player.health > 0 && score >= 0 && points >= 0
      ensures Valid()
      ensures old(level) > NUM_LEVELS ==>
        level == 1 && score == 0 && points == 0 && lastFrameTime == now && Loaded(INITIAL_PLAYER, old(cellDraws))
      ensures old(level) <= NUM_LEVELS ==>
        level == old(level) && score == old(score) && points == old(points) && lastFrameTime == old(lastFrameTime)
        && Loaded(old(player), old(cellDraws))
      ensures dropDraws == old(dropDraws)
    {
      if level > NUM_LEVELS {
        ResetGame(now);
      } else {
        LoadLevel();
      }
    }

    /**
     * The body of reset_level for a level of the catalogue, once its layout
     * is in place. In this model every caller reaches it with a living
     * player: a player with no health is at game over (Valid), and from
     * there only a restart reloads anything (Phases.GameOverSticky).
     */
    method LoadLevel()
      modifies this`player, this`enemies, this`bullets, this`enemyBullets, this`powerups,
               this`systems, this`repair, this`phase, this`cellDraws
      requires DrawsOnGrid(cells) && PlayerOk(player) && player.health > 0 && score >= 0 && points >= 0
      requires CatalogueOk(layouts) && level <= NUM_LEVELS && Grid() == layouts[level - 1]
      ensures Valid()
      ensures Loaded(old(player), old(cellDraws))
      ensures Kept()
    {
      var g := Grid();
      var start := FindStartPosition(g);
      StartIsFloor(g);
      var ss := CollectSystems(g);
      player := player.(x := start.x, y := start.y, z := 0.0, ammo := player.maxAmmo);
      enemies := [];
      ghost var draws := cellDraws;
      SpawnLevelEnemies();
      SpawnAllSound(g, start.x, start.y, SpawnPlan(level), cells, draws);
      WellPlacedIsClear(g, start.x, start.y, enemies);
      EnterLevel(ss);
    }

    /** The rest of reset_level: the level's systems, no bullets, no powerups, no repair, and the level in play. */
    method EnterLevel(ss: seq<RepairSystem>)
      modifies this`bullets, this`enemyBullets, this`powerups, this`systems, this`repair, this`phase
      requires DrawsOnGrid(cells) && PlayerOk(player) && player.health > 0 && score >= 0 && points >= 0
      requires CatalogueOk(layouts) && level <= NUM_LEVELS && Grid() == layouts[level - 1] && ss == SocketSystems(Grid())
      requires !IsWall(Grid(), player.x, player.y) && AllAlive(enemies) && EnemiesClear(Grid(), enemies)
      ensures Valid()
      ensures systems == ss && bullets == [] && enemyBullets == [] && powerups == [] && repair == Idle && phase == Playing
      ensures Kept()
    {
      bullets, enemyBullets, powerups, systems, repair, phase := [], [], [], ss, Idle, Playing;
    }

    /** The spawn loop of reset_level: one spawn_enemy call per entry of the level's plan. */
    method SpawnLevelEnemies()
      modifies this`enemies, this`cellDraws
      requires DrawsOnGrid(cells) && CatalogueOk(layouts) && level <= NUM_LEVELS && enemies == []
      ensures var batch := SpawnAll(Grid(), player.x, player.y, SpawnPlan(level), cells, old(cellDraws));
        enemies == batch.enemies && cellDraws == batch.next
      ensures Kept()
    {
      var plan := SpawnPlan(level);
      ghost var g, px, py, draws := Grid(), player.x, player.y, cellDraws;
      var k := 0;
      while k < |plan|
        modifies this`enemies, this`cellDraws
        invariant 0 <= k <= |plan|
        invariant enemies + SpawnAll(g, px, py, plan[k..], cells, cellDraws).enemies
               == SpawnAll(g, px, py, plan, cells, draws).enemies
        invariant SpawnAll(g, px, py, plan[k..], cells, cellDraws).next
               == SpawnAll(g, px, py, plan, cells, draws).next
      {
        assert plan[k..][1..] == plan[k + 1..];
        SpawnAllFront(g, px, py, plan[k..], cells, cellDraws, enemies);
        SpawnEnemy(plan[k]);
        k := k + 1;
      }
      assert plan[k..] == [];
    }

    /**
     * spawn_enemy (project.py:356-393): nothing past the catalogue;
     * otherwise up to 100 cell samples, and the enemy appended at the first
     * empty cell at least four cells from the player, if any.
     */
    method SpawnEnemy(kind: EnemyKind)
      modifies this`enemies, this`cellDraws
      requires DrawsOnGrid(cells) && CatalogueOk(layouts)
      ensures level > NUM_LEVELS ==> enemies == old(enemies) && cellDraws == old(cellDraws)
      ensures level <= NUM_LEVELS ==>
        var s := SpawnOutcome(Grid(), player.x, player.y, kind, cells, old(cellDraws));
        && enemies == old(enemies) + Spawned(s)
        && cellDraws == s.next
    {
      if level > NUM_LEVELS {
        return;
      }
      var e, next := TrySpawn(Grid(), player.x, player.y, kind, cells, cellDraws);
      enemies, cellDraws := enemies + Spawned(SpawnResult(e, next)), next;
    }

    /**
     * spawn_powerup (project.py:396-399): one powerup of the next sampled
     * type at (x, y). The kill in the bullet pass builds the same powerup,
     * DropAt of the next sample, into the pass's drops (Passes.Strike).
     */
    method SpawnPowerup(x: real, y: real)
      modifies this`powerups, this`dropDraws
      ensures powerups == old(powerups) + [DropAt(drops(old(dropDraws)), x, y)]
      ensures dropDraws == old(dropDraws) + 1
    {
      powerups, dropDraws := powerups + [DropAt(drops(dropDraws), x, y)], dropDraws + 1;
    }

    /**
     * update_player (project.py:860-961): the player slides along the walls
     * when no repair is going on, then the repair logic runs; a repair that
     * finishes marks its system repaired and checks for level completion.
     */
    method UpdatePlayer(dt: real, held: bool, step: Vec2)
      modifies this`player, this`repair, this`systems, this`phase, this`score, this`points
      requires Valid() && phase == Playing
      ensures Valid()
      ensures player == Moved(Grid(), old(player), old(repair), step)
      ensures var o := RepairTick(old(systems), player.x, player.y, held, old(repair), dt);
        && repair == o.state
        && systems == AfterTick(old(systems), o)
        && Completion(phase == LevelComplete, score, points)
           == Completed(old(systems), o, level, Completion(false, old(score), old(points)))
      ensures phase == Playing || phase == LevelComplete
      ensures FrameProgress()
    {
      var moved := Vec2(player.x, player.y);
      if repair.Idle? {
        moved := SlideMove(Grid(), player.x, player.y, step.x, step.y);
      }
      var p := player.(x := moved.x, y := moved.y);
      RepairTickKeepsOk(systems, p.x, p.y, held, repair, dt);
      var o := RepairFrame(systems, p.x, p.y, held, repair, dt);
      player, repair, systems := p, o.state, AfterTick(systems, o);
      if o.finished.Some? {
        CheckLevelComplete();
      }
    }

    /**
     * check_level_complete (project.py:1130-1141), called while the level is
     * in play: with every system repaired the level is complete and score
     * and points both get level * 50; a level without systems never is.
     */
    method CheckLevelComplete()
      modifies this`phase, this`score, this`points
      requires Valid()
      ensures Valid()
      ensures old(phase) == Playing ==>
        Completion(phase == LevelComplete, score, points)
        == CompleteLevel(systems, level, Completion(false, old(score), old(points)))
      ensures old(phase) == Playing ==> phase == Playing || phase == LevelComplete
      ensures old(phase) != Playing ==> phase == old(phase) && score == old(score) && points == old(points)
      ensures FrameProgress()
    {
      if systems == [] {
        return;
      }
      if AllRepaired(systems) && phase == Playing {
        phase, score, points := LevelComplete, score + LevelBonus(level), points + LevelBonus(level);
      }
    }

    /**
     * update_enemies (project.py:964-1034): every enemy acts, the shots
     * fired join the enemy bullets, and a fatal contact ends the game.
     */
    method UpdateEnemies(now: real, dt: real, steer: seq<Steering>)
      modifies this`enemies, this`enemyBullets, this`player, this`phase
      requires Valid() && |steer| == |enemies|
      ensures Valid()
      ensures var r := Enemies(Grid(), old(player), old(enemies), steer, now, dt);
        && enemies == r.enemies
        && enemyBullets == old(enemyBullets) + r.shots
        && player == r.player
        && phase == (if r.fatal then GameOver else old(phase))
      ensures FrameProgress()
    {
      var g := Grid();
      var r := EnemyPassLoop(g, player, enemies, steer, now, dt);
      EnemiesStayClear(g, player, enemies, steer, now, dt);
      CommitEnemyPass(r);
    }

    /** Stores the outcome of the enemy loop in the world. */
    method CommitEnemyPass(r: EnemyPass)
      modifies this`enemies, this`enemyBullets, this`player, this`phase
      requires Valid()
      requires AllAlive(r.enemies) && EnemiesClear(Grid(), r.enemies) && ShotsClear(Grid(), r.shots)
      requires OnlyHurt(player, r.player) && (r.player.health == 0 ==> r.fatal || phase == GameOver)
      ensures Valid()
      ensures enemies == r.enemies && enemyBullets == old(enemyBullets) + r.shots && player == r.player
      ensures phase == (if r.fatal then GameOver else old(phase))
    {
      enemies, enemyBullets, player, phase := r.enemies, enemyBullets + r.shots, r.player, if r.fatal then GameOver else phase;
    }

    /**
     * update_bullets (project.py:1037-1104): the player's bullets fly and
     * strike, then the enemy bullets fly and strike the player.
     */
    method UpdateBullets(dt: real)
      modifies this`bullets, this`enemies, this`powerups, this`score, this`points, this`dropDraws,
               this`enemyBullets, this`player, this`phase
      requires Valid()
      ensures Valid()
      ensures var r := PlayerBullets(Grid(), dt, old(bullets), old(enemies), drops, old(dropDraws));
        && bullets == r.bullets && enemies == r.enemies
        && powerups == old(powerups) + r.drops && dropDraws == r.next
        && score == old(score) + r.gain && points == old(points) + r.gain
      ensures var s := EnemyShots(Grid(), dt, old(enemyBullets), old(player));
        && enemyBullets == s.bullets && player == s.player
        && phase == (if s.fatal then GameOver else old(phase))
    {
      MovePlayerBullets(dt);
      MoveEnemyBullets(dt);
    }

    /**
     * The first loop of update_bullets (project.py:1043-1076): each kill
     * pays the enemy's points into both score and points and drops a
     * powerup where the enemy stood.
     */
    method MovePlayerBullets(dt: real)
      modifies this`bullets, this`enemies, this`powerups, this`score, this`points, this`dropDraws
      requires Valid()
      ensures Valid()
      ensures var r := PlayerBullets(Grid(), dt, old(bullets), old(enemies), drops, old(dropDraws));
        && bullets == r.bullets && enemies == r.enemies
        && powerups == old(powerups) + r.drops && dropDraws == r.next
        && score == old(score) + r.gain && points == old(points) + r.gain
        && r.gain == Worth(old(enemies)) - Worth(enemies)
    {
      PlayerBulletsFacts(Grid(), dt, bullets, enemies, drops, dropDraws);
      var r := PlayerBulletPass(Grid(), dt, bullets, enemies, drops, dropDraws);
      CommitBulletPass(r);
    }

    /** Stores the outcome of the player-bullet loop in the world. */
    method CommitBulletPass(r: BulletPass)
      modifies this`bullets, this`enemies, this`powerups, this`score, this`points, this`dropDraws
      requires Valid()
      requires BulletsClear(Grid(), r.bullets) && EnemiesClear(Grid(), r.enemies) && AllAlive(r.enemies)
      ensures Valid()
      ensures bullets == r.bullets && enemies == r.enemies && powerups == old(powerups) + r.drops && dropDraws == r.next
      ensures score == old(score) + r.gain && points == old(points) + r.gain
    {
      bullets, enemies, powerups, dropDraws, score, points :=
        r.bullets, r.enemies, powerups + r.drops, r.next, score + r.gain, points + r.gain;
    }

    /**
     * The second loop of update_bullets (project.py:1078-1104): a fatal hit
     * on the player ends the game.
     */
    method MoveEnemyBullets(dt: real)
      modifies this`enemyBullets, this`player, this`phase
      requires Valid()
      ensures Valid()
      ensures var s := EnemyShots(Grid(), dt, old(enemyBullets), old(player));
        && enemyBullets == s.bullets && player == s.player
        && phase == (if s.fatal then GameOver else old(phase))
    {
      var s := EnemyShotPass(Grid(), dt, enemyBullets, player);
      enemyBullets, player, phase := s.bullets, s.player, if s.fatal then GameOver else phase;
    }

    /** update_powerups (project.py:1107-1127): powerups spin, and those in reach are collected. */
    method UpdatePowerups(dt: real)
      modifies this`powerups, this`player
      requires Valid()
      ensures Valid()
      ensures powerups == Powerups(old(player), old(powerups), dt).powerups
      ensures powerups == Unclaimed(old(player), old(powerups), dt)
      ensures player == Powerups(old(player), old(powerups), dt).player
    {
      var r := PowerupPassLoop(player, powerups, dt);
      PowerupsUnclaimed(player, powerups, dt);
      powerups, player := r.powerups, r.player;
    }

    /**
     * The left-button branch of mouse_click (project.py:1236-1253): firing
     * is blocked outside play and during a repair.
     */
    method Fire(now: real, velocity: Vec3)
      modifies this`player, this`bullets
      requires Valid()
      ensures Valid()
      ensures var s := FireGun(old(phase) != Playing || repair.Repairing?, old(player), now, velocity);
        player == s.player && bullets == old(bullets) + s.bullets
    {
      var s := FireGun(phase != Playing || repair.Repairing?, player, now, velocity);
      player, bullets := s.player, bullets + s.bullets;
    }

    /**
     * The phase branch of keyboard_down (project.py:1145-1171), followed by
     * the reload it asks for.
     */
    method KeyDown(k: Key, now: real)
      modifies this
      requires Valid()
      ensures Valid()
      ensures var s := Phases.KeyDown(Meta(old(level), old(phase), old(points), old(player)), k);
        && (s.reload == Stay ==>
              level == s.meta.level && phase == s.meta.phase && points == s.meta.points && player == s.meta.player
              && KeptBesideMeta())
        && (s.reload == ReloadLevel ==>
              level == s.meta.level && points == s.meta.points && score == old(score)
              && lastFrameTime == old(lastFrameTime) && dropDraws == old(dropDraws)
              && Loaded(s.meta.player, old(cellDraws)))
        && (s.reload == ReloadGame ==>
              level == 1 && score == 0 && points == 0 && lastFrameTime == now && dropDraws == old(dropDraws)
              && Loaded(INITIAL_PLAYER, old(cellDraws)))
    {
      var m := Meta(level, phase, points, player);
      var s := Phases.KeyDown(m, k);
      KeyDownTransitions(m, k);
      PointsStayNonNegative(m, k);
      KeyDownKeepsPlayer(m, k);
      level, phase, points, player := s.meta.level, s.meta.phase, s.meta.points, s.meta.player;
      if s.reload == Stay {
        MetaKeepsValid();
      }
      ApplyReload(s.reload, now);
    }

    /**
     * Changing only the level, the phase, the points and the player keeps
     * the invariant when the player stays in place with stats in range, the
     * layout stays the same, and a win or a death is game over.
     */
    twostate lemma MetaKeepsValid()
      requires old(Valid()) && KeptBesideMeta()
      requires PlayerOk(player) && player.x == old(player).x && player.y == old(player).y && points >= 0
      requires LayoutIndex(level) == LayoutIndex(old(level))
      requires (level > NUM_LEVELS ==> phase == GameOver) && (player.health == 0 ==> phase == GameOver)
      ensures Valid()
    {
    }

    /** The reload a key asked for: nothing, reset_level, or reset_game. */
    method ApplyReload(r: Reload, now: real)
      modifies this
      requires DrawsOnGrid(cells) && CatalogueOk(layouts)
      requires r == Stay ==> Valid()
      requires r == ReloadLevel ==> level <= NUM_LEVELS && PlayerOk(player) && player.health > 0 && score >= 0 && points >= 0
      ensures Valid()
      ensures r == Stay ==> unchanged(this)
      ensures r == ReloadLevel ==> Kept() && Loaded(old(player), old(cellDraws))
      ensures r == ReloadGame ==>
        level == 1 && score == 0 && points == 0 && lastFrameTime == now && dropDraws == old(dropDraws)
        && Loaded(INITIAL_PLAYER, old(cellDraws))
    {
      match r
      case Stay =>
      case ReloadLevel => ResetLevel(now);
      case ReloadGame => ResetGame(now);
    }

    /**
     * The idle loop (project.py:1422-1437): the frame time is clamped to
     * 0.05 s, and the level updates only while it is in play.
     */
    method Frame(now: real, input: FrameInput)
      modifies this
      requires Valid() && |input.steer| == |enemies|
      ensures Valid()
      ensures lastFrameTime == now
      ensures old(phase) != Playing ==>
        && phase == old(phase) && player == old(player) && enemies == old(enemies)
        && bullets == old(bullets) && enemyBullets == old(enemyBullets) && powerups == old(powerups)
        && systems == old(systems) && score == old(score) && points == old(points)
        && repair == old(repair) && cellDraws == old(cellDraws) && dropDraws == old(dropDraws)
      ensures score >= old(score) && points >= old(points) && level == old(level)
      ensures old(phase) == Playing ==> phase != Upgrading
    {
      var dt := MinReal(now - lastFrameTime, MAX_DT);
      lastFrameTime := now;
      if phase == Playing {
        UpdateActors(now, dt, input);
        UpdateShots(dt);
      }
    }

    /**
     * What a frame update keeps: score and points never fall, the level and
     * the clock stay, and the shop is never entered.
     */
    twostate predicate FrameProgress()
      reads this
    {
      && score >= old(score) && points >= old(points) && level == old(level)
      && lastFrameTime == old(lastFrameTime)
      && (old(phase) != Upgrading ==> phase != Upgrading)
    }

    /** The first half of a frame in play: update_player, then update_enemies. */
    method UpdateActors(now: real, dt: real, input: FrameInput)
      modifies this`player, this`repair, this`systems, this`phase, this`score, this`points,
               this`enemies, this`enemyBullets
      requires Valid() && phase == Playing && |input.steer| == |enemies|
      ensures Valid() && FrameProgress()
      ensures var p := Moved(Grid(), old(player), old(repair), input.step);
        var o := RepairTick(old(systems), p.x, p.y, input.repairHeld, old(repair), dt);
        var c := Completed(old(systems), o, level, Completion(false, old(score), old(points)));
        var r := Enemies(Grid(), p, old(enemies), input.steer, now, dt);
        && repair == o.state && systems == AfterTick(old(systems), o)
        && score == c.score && points == c.points
        && enemies == r.enemies && enemyBullets == old(enemyBullets) + r.shots && player == r.player
        && phase == (if r.fatal then GameOver else if c.complete then LevelComplete else Playing)
    {
      UpdatePlayer(dt, input.repairHeld, input.step);
      UpdateEnemies(now, dt, input.steer);
    }

    /** The second half of a frame in play: update_bullets, then update_powerups. */
    method UpdateShots(dt: real)
      modifies this`bullets, this`enemies, this`powerups, this`score, this`points, this`dropDraws,
               this`enemyBullets, this`player, this`phase
      requires Valid()
      ensures Valid() && FrameProgress()
      ensures var r := PlayerBullets(Grid(), dt, old(bullets), old(enemies), drops, old(dropDraws));
        var h := EnemyShots(Grid(), dt, old(enemyBullets), old(player));
        var u := Powerups(h.player, old(powerups) + r.drops, dt);
        && bullets == r.bullets && enemies == r.enemies && dropDraws == r.next
        && score == old(score) + r.gain && points == old(points) + r.gain
        && enemyBullets == h.bullets && phase == (if h.fatal then GameOver else old(phase))
        && powerups == u.powerups && player == u.player
    {
      UpdateBullets(dt);
      UpdatePowerups(dt);
    }
  }
}
