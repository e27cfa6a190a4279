# Space Station Siege: a Dafny model of the game core

Space Station Siege is a single-file OpenGL shooter (`project.py`). The
player walks a grid-based space station, shoots four kinds of enemies,
picks up powerups and repairs every system of a level to complete it. A
shop then sells upgrades with the points earned, and the next of three
levels follows. This project models the rules of that game, not its
rendering:

- **levels.dfy** (`Levels`): the three 15×15 layouts of `LEVEL_LAYOUTS`, the
  level bounds, the cell lookup with Python's truncating `int()`, and the
  point-in-wall test.
- **entities.dfy** (`Entities`): the enemy catalogue `ENEMY_TYPES` and the
  player, enemy, bullet, powerup and system records. It also holds damage
  (shield first), powerup pickup, firing, and wall sliding.
- **spawning.dfy** (`Spawning`): `spawn_enemy`'s retry loop, the per-level
  spawn counts, the player's start cell, and the systems built from the
  code-2 cells of a layout.
- **passes.dfy** (`Passes`): the loops of `update_enemies`,
  `update_bullets` and `update_powerups`.
  - Each loop has a recursive function that specifies it.
  - Each loop also has a `method` that runs it in place, back to front as
    the source does, and is proved equal to its function.
- **repairs.dfy** (`Repairs`): the repair sub-state of `update_player` and
  `check_level_complete`.
- **phases.dfy** (`Phases`): the phase branch of `keyboard_down` and
  `handle_upgrade_selection`.
- **world.dfy** (`Game`): the class `World`, which holds the game's global
  state as fields.
  - Its methods are `reset_game`, `reset_level`, `spawn_enemy`,
    `spawn_powerup`, the four update functions, the fire branch of
    `mouse_click`, `keyboard_down` and one frame of `idle`.
  - Every method except the three spawn helpers (`SpawnLevelEnemies`,
    `SpawnEnemy` and `SpawnPowerup`) requires and keeps the invariant
    `Valid()`. The spawn helpers run inside `LoadLevel` while it rebuilds a
    level, before the invariant holds again. The invariant states, among
    other things:
    - the stats stay in range;
    - every enemy is alive;
    - the player, the enemies and the bullets stay out of the walls;
    - the systems sit on the layout's sockets;
    - a dead player means the game is over.
- **findings.dfy** (`Findings`): two defects of the source, each modelled as
  written and then corrected (see "## Findings").
- **scenarios.dfy** (`Scenarios`): concrete walks through the rules.

How the source's state is represented:

- The three flags `level_complete`, `upgrading` and `game_over` become one
  `Phase`: `Playing`, `LevelComplete`, `Upgrading` or `GameOver`. When one
  frame both completes the level and kills the player, the game is over.
- `repairing`, `repair_timer` and `system_being_repaired` become one
  `RepairState`. The target is an index into the level's systems; that
  list does not change during a level.
- The time of an enemy's last contact damage is kept on the enemy
  (`Enemy.lastContactTime`). The source keeps it in a table keyed by list
  position instead (see "## Findings").
- Coordinates and times are `real`.
- A comparison of a square-rooted distance with a radius is written
  exactly, as a comparison of squared distances.

`ENEMY_TYPES` (`project.py:45-87`) gives a tank 10 contact damage, and
the model uses that value (see `Scenarios.ContactDamage`).

## Model

| member | source | states |
|---|---|---|
| Levels.LayoutIndex | project.py:211-217 | the layout index is level - 1, clamped to the last layout for a level past the catalogue |
| Levels.LevelBounds | project.py:211-217 | the level spans columns × 100 by rows × 100 from the origin: 1500 × 1500 for every layout |
| Levels.Trunc | project.py:228-229 | Python's int() of a float truncates toward zero, pinned by bounds on both sides of zero |
| Levels.CodeAt | project.py:225-232 | a point inside the level lies in a cell of the grid, and its code is that cell's |
| Levels.IsWall | project.py:220-233 | every point outside the level is wall; inside, a point is wall exactly when its cell has code 1 |
| Levels.CentreInCell | project.py:228-232 | a cell centre lies inside the level and in that very cell, so it is a wall exactly when its code is 1 |
| Entities.Info | project.py:45-87 | every enemy type starts alive, hurts and is worth points; only snipers have a shooting range; only drones fly |
| Entities.NewEnemy | project.py:380-388 | a spawned enemy has the requested type and position, its type's altitude and full health, and last shot and contact times of 0, so it may fire and touch the player at once |
| Entities.ApplyDamage | project.py:1024-1034 | the shield absorbs first and health takes only the rest; the hit is fatal exactly when health reaches zero or below, and health is then clamped to 0 |
| Entities.DamageKeepsRanges | project.py:1024-1034 | a hit keeps the stats in range, never raises shield or health, takes exactly the damage when not fatal, and is fatal exactly when health ends at 0 |
| Entities.PickupEffect | project.py:1117-1126 | a health pack adds 20 and an ammo pack 10, each capped at the maximum; stats only grow and stay in range |
| Entities.WrapDegrees | project.py:1112 | the powerup rotation is brought into [0, 360) and left alone when already there |
| Entities.FireGun | project.py:1236-1253 | a shot happens exactly when nothing blocks it, there is ammo and the fire interval has passed; it costs one round, stamps the time and adds one bullet at the player's height plus the muzzle height with the aimed velocity; otherwise nothing changes; stats stay in range |
| Entities.SlideMove | project.py:896-903 | the full step if its end is free, else the x-only step if free, else the y-only step if free, else no move; each axis moves by its whole step or not at all; a mover outside a wall never ends inside one |
| Spawning.FirstSpawn | project.py:366-378 | a sample the search returns lies in the window it searched and is a valid spawn cell |
| Spawning.FirstSpawnSkips | project.py:366-378 | the search passes over unusable samples only, and finds nothing only when every sample in the window is unusable |
| Spawning.SpawnOutcomeSound | project.py:356-393 | a spawn uses 1 to 100 samples; an enemy it places is of the requested type, at the centre of an empty cell at least four cells from the player, at its type's altitude, at full health, with last shot and contact times of 0, and outside the walls; it fails only after 100 unusable samples |
| Spawning.TrySpawn | project.py:366-393 | the retry loop returns exactly the outcome SpawnOutcome specifies |
| Spawning.SpawnPlanCounts | project.py:305-316 | a level asks for 2 + level scouts, level - 1 tanks, level - 2 snipers (none when negative) and 2 × level drones |
| Spawning.PlanCount | project.py:305-316 | the count of each enemy type in a level's plan, and the plan's length |
| Spawning.SpawnPlanGrows | project.py:305-316 | a later level never asks for fewer enemies of any type |
| Spawning.SpawnAllSound | project.py:313-316 | a level load adds at most one enemy per planned spawn, each well placed around the player's start and alive, using at most 100 samples per spawn |
| Spawning.StartIsFirstEmpty | project.py:261-272 | when the layout has an empty cell, the start is the centre of the first empty cell in reading order, which is not a wall |
| Spawning.ScanRow | project.py:262-268 | a column the row scan returns is at or after where it started and holds an empty cell |
| Spawning.ScanRowSkips | project.py:262-268 | the row scan passes over non-empty cells only |
| Spawning.ScanRows | project.py:261-272 | a cell the grid scan returns is on the grid, in a row at or after where it started, and empty |
| Spawning.ScanRowsSkips | project.py:261-272 | the grid scan passes over non-empty cells only, in reading order |
| Spawning.FindStart | project.py:261-272 | the nested search loop finds exactly the first empty cell |
| Spawning.FindStartPosition | project.py:261-275 | the placement computes exactly StartPosition: the centre of the first empty cell, or the middle of the level when no cell is empty |
| Spawning.SocketSystemsExact | project.py:293-303 | one unrepaired system per code-2 cell: every system stands on a socket, every socket has one, and the systems are strictly in reading order |
| Spawning.RowSocketsFacts | project.py:294-303 | the systems of one row after n columns lie on sockets of that row, left to right, all left of column n, and include every socket before n |
| Spawning.GridSocketsFacts | project.py:293-303 | the systems of the first m rows lie on sockets, in reading order, all above row m, and include every socket of those rows |
| Spawning.CollectSystems | project.py:293-303 | the nested loops build exactly SocketSystems of the layout |
| Passes.LastHit | project.py:1054-1059 | the enemy found is hit by the bullet and no later enemy in the list is; none is found only when no enemy is hit |
| Passes.FindTarget | project.py:1054-1072 | the back-to-front inner loop finds the last enemy the bullet hits |
| Passes.WorthRemove | project.py:1063-1068 | removing an enemy takes exactly its points from the worth of the list |
| Passes.WorthUpdate | project.py:1060 | wounding an enemy in place leaves the worth of the list unchanged |
| Passes.BulletStep | project.py:1043-1076 | a bullet stays only inside the level and outside the walls; at most one powerup drops per bullet; the points earned equal the worth of the enemies destroyed; living enemies stay alive |
| Passes.Strike | project.py:1058-1069 | a strike always consumes the bullet, drops at most one powerup, pays exactly the worth taken off the list, and keeps living enemies alive |
| Passes.BulletStepEffect | project.py:1049-1076 | a bullet stays in flight exactly when it is outside the walls and hits no enemy, and then nothing else changes; a bullet in a wall does nothing |
| Passes.StrikesLastHit | project.py:1054-1072 | a bullet outside the walls that hits an enemy strikes the last one it hits |
| Passes.StrikeEffect | project.py:1058-1069 | a strike that leaves the enemy above zero takes 15 health off it in place; one that leaves it at zero or below removes it, scores its points and drops one powerup where it stood |
| Passes.BulletStepKeepsClear | project.py:1043-1076 | a bullet never puts an enemy into a wall: enemies outside the walls stay outside |
| Passes.PlayerBulletsFacts | project.py:1043-1076 | over the whole loop: bullets never appear; survivors are inside the level and outside the walls; one powerup and one sample per kill; the points equal the worth of the enemies destroyed; enemies stay alive and out of the walls |
| Passes.StrikeTarget | project.py:1049-1076 | the loop body for one moved bullet computes exactly BulletStep |
| Passes.PlayerBulletPass | project.py:1043-1076 | the in-place loop with pops computes exactly PlayerBullets |
| Passes.HitOnlyHurts | project.py:1024-1034 | a hit never heals: it changes only shield and health, and lowers them |
| Passes.Act | project.py:978-1017 | only the position and the shot time change; the shot time is stamped exactly when a sniper with the player in range has waited its fire interval; a non-sniper farther than 1.5 radii moves to its chase step exactly when that point is not a wall, and every other enemy stays put |
| Passes.EnemyStep | project.py:971-1034 | one enemy's turn keeps its type, health and height; it fires exactly when SniperFires; the bullet starts at the sniper with the sniper's damage; the player is only hurt; for a living player a hit is fatal exactly when health reaches 0 |
| Passes.EnemyStepContact | project.py:1019-1034 | contact in reach after the 0.5 s interval deals the type's damage and records the time; otherwise the player and the record are untouched |
| Passes.Enemies | project.py:968-1034 | the loop keeps the list's length and each enemy's type and health; at most one shot per enemy, each of sniper damage; the player is only hurt; for a living player the pass is fatal exactly when health ends at 0 |
| Passes.EnemiesStayClear | project.py:1008-1017 | enemies never walk into a wall, and every enemy bullet starts outside the walls |
| Passes.EnemyPassLoop | project.py:968-1034 | the in-place back-to-front loop computes exactly Enemies |
| Passes.ShotStep | project.py:1080-1104 | an enemy bullet stays only inside the level and outside the walls; the player is only hurt; for a living player a hit is fatal exactly when health reaches 0 |
| Passes.ShotStepEffect | project.py:1084-1100 | a bullet stays exactly when outside the walls and out of the player's radius; in a wall it does nothing; in the player's radius it deals its damage, shield first |
| Passes.EnemyShots | project.py:1078-1104 | bullets never appear; survivors are inside the level and outside the walls; the player is only hurt; for a living player the pass is fatal exactly when health ends at 0 |
| Passes.EnemyShotPass | project.py:1078-1104 | the in-place loop with pops computes exactly EnemyShots |
| Passes.OutOfBoundsIsWall | project.py:1074-1076 | a point outside the level is always a wall, so the loops' out-of-bounds pops never take anything the wall test left |
| Passes.Spin | project.py:1112 | a powerup only spins, to an angle in [0, 360) |
| Passes.Powerups | project.py:1107-1127 | the pass changes only the player's health and ammo, keeps them in range and never lowers them |
| Passes.PowerupsRefill | project.py:1112-1126 | over the whole pass, health rises by 20 per health pack in reach and ammo by 10 per ammo pack in reach, each capped at its maximum |
| Passes.PowerupsUnclaimed | project.py:1107-1127 | the powerups left are exactly those out of pickup reach, spun, in their original order, as the front-to-back reference Unclaimed lists them |
| Passes.UnclaimedSamePlace | project.py:1112-1115 | which powerups are claimed depends only on where the player stands |
| Passes.PowerupPassLoop | project.py:1107-1127 | the in-place back-to-front loop with pops computes exactly Powerups |
| Repairs.NearestUpTo | project.py:942-952 | the target held after n systems is an unrepaired system in reach, no farther than any other candidate so far and strictly nearer than every earlier one; none only when no candidate |
| Repairs.NearestExact | project.py:940-961 | the search's result is exactly the system IsNearest describes, and it finds none only when no system is in reach |
| Repairs.FindRepairTarget | project.py:942-952 | the search loop returns exactly Nearest |
| Repairs.InterruptResets | project.py:907-937 | releasing the key or leaving the reach interrupts the repair: no repair, timer reset, nothing repaired |
| Repairs.RepairTickCases | project.py:906-961 | a repair finishes exactly when it goes on and its timer reaches 5 s, and then on its own target; with no repair going on, holding the key with a candidate in reach starts one on the nearest candidate with the timer at zero, and otherwise nothing happens; a repair held in reach below 5 s goes on with the timer plus dt; a running repair never changes target |
| Repairs.RepairFrame | project.py:906-961 | the repair branch computes exactly RepairTick |
| Repairs.MarkRepaired | project.py:924 | the target becomes repaired, every other system is unchanged, and no flag is cleared |
| Repairs.RepairTickKeepsOk | project.py:906-961 | a frame keeps the repair target valid and unrepaired, and never clears a repaired flag |
| Repairs.CompleteLevelOnce | project.py:1130-1141 | the check changes something exactly when the level has systems, all repaired, and is not yet complete; it then adds level × 50 to score and points; a second check changes nothing |
| Repairs.LastRepairCompletes | project.py:920-932 | finishing the last unrepaired system completes the level with the bonus |
| Phases.UpgradeCost | project.py:1291-1323 | every price lies between 30 and 80 (the exact prices are stated by Scenarios.ShopPrices and Phases.UpgradeGated) |
| Phases.UpgradeEffect | project.py:1291-1323 | each upgrade improves exactly one stat: fire interval × 0.8, or exactly 0.1 when that would fall below 0.1; or a maximum +10 ammo / +25 health / +50 shield with the stat refilled; ranges are kept |
| Phases.AdvanceLevel | project.py:1327-1334 | leaving the shop raises the level by one: past the last layout the game is won and over, otherwise the next level is loaded |
| Phases.UpgradeGated | project.py:1285-1336 | with too few points a choice changes nothing; with enough, the points drop by exactly the cost (50, 30, 40 or 80 for choices 1 to 4), the upgrade applies and the level goes up by one |
| Phases.PlayingIgnoresKeys | project.py:1145-1171 | during play the phase keys change nothing |
| Phases.GameOverSticky | project.py:1165-1166 | game over changes on R alone, which restarts the game |
| Phases.KeyDownTransitions | project.py:1145-1171 | space on the level-complete screen opens the shop; space in the shop raises the level by one without charging, into play or, past the last level, game over; a digit 1-4 in the shop is a purchase; no other phase change happens, the level rises only on leaving the shop, and a game restart happens exactly on R at game over |
| Phases.WinCondition | project.py:1159-1164 | leaving the shop from the last level ends the game, and from an earlier one starts the next level |
| Phases.PointsStayNonNegative | project.py:1285-1336 | points never go negative, never grow on a key, and fall only by a purchase of at least 30 |
| Phases.KeyDownKeepsPlayer | project.py:1145-1171 | the phase keys keep the player's stats in range, never move the player and never kill a living one |
| Game.CatalogueHasFloor | project.py:117-172 | every layout has an empty cell |
| Game.StartIsFloor | project.py:261-272 | in a layout whose cell (1, 1) is floor, as in every layout of the catalogue, the player's start is not inside a wall |
| Game.WellPlacedIsClear | project.py:366-388 | spawned enemies are alive and outside the walls |
| Game.World.constructor | project.py:1465 | the game starts as reset_game leaves it: level 1, no score, no points, the clock at now, the first level loaded |
| Game.World.ResetGame | project.py:319-353 | a fresh player, level 1, no score and no points, the clock at now, and the level loaded as Loaded describes |
| Game.World.ResetLevel | project.py:244-316 | past the catalogue it restarts the game; otherwise the level is loaded with the player's stats kept and a refilled magazine, and score, points, level, clock and powerup samples unchanged |
| Game.World.LoadLevel | project.py:256-316 | the player at the start on the ground with a full magazine, the level's systems, its enemies spawned in plan order, no bullets, powerups or repair, and the level in play |
| Game.World.EnterLevel | project.py:276-303 | the systems are the layout's; no bullets, powerups or repair; the level is in play |
| Game.World.SpawnLevelEnemies | project.py:313-316 | one spawn_enemy per entry of the plan, in order, giving exactly the batch SpawnAll specifies |
| Game.World.SpawnEnemy | project.py:356-393 | nothing past the catalogue; otherwise the enemy SpawnOutcome finds is appended and the samples it used are consumed |
| Game.World.SpawnPowerup | project.py:396-399 | one powerup of the next sampled type is appended at the given point and the sample is consumed; the kill in the bullet pass (Passes.Strike) builds the same powerup, DropAt of the next sample, into its list of drops instead of calling this method |
| Game.World.UpdatePlayer | project.py:860-961 | the player slides only when not repairing; the repair state and systems advance as RepairTick says; a finished repair runs the completion check of CompleteLevel; score and points never fall |
| Game.World.CheckLevelComplete | project.py:1130-1141 | in play, the flag, score and points change exactly as CompleteLevel says; in another phase nothing changes |
| Game.World.UpdateEnemies | project.py:964-1034 | the enemies, new bullets and player are those the Enemies loop gives; a fatal hit ends the game |
| Game.World.CommitEnemyPass | project.py:968-1034 | storing an enemy pass keeps the invariant, sets the enemies, appends the new shots, sets the player, and ends the game on a fatal hit |
| Game.World.UpdateBullets | project.py:1037-1104 | the player bullets, enemies, powerups and points are those PlayerBullets gives; then the enemy bullets and the player are those EnemyShots gives, and a fatal hit ends the game |
| Game.World.MovePlayerBullets | project.py:1043-1076 | each kill pays the enemy's points into both score and points; the total is the worth of the enemies destroyed |
| Game.World.CommitBulletPass | project.py:1043-1076 | storing a bullet pass keeps the invariant, appends the drops, and adds the points earned to both score and points |
| Game.World.MoveEnemyBullets | project.py:1078-1104 | enemy bullets fly and strike the player as EnemyShots says; a fatal hit ends the game |
| Game.World.UpdatePowerups | project.py:1107-1127 | the powerups left are exactly the unclaimed ones, and the player is as the Powerups pass leaves them |
| Game.World.Fire | project.py:1236-1253 | firing is blocked outside play and during a repair; otherwise FireGun's shot is taken |
| Game.World.KeyDown | project.py:1145-1171 | the phase, level, points and player follow Phases.KeyDown and every other field is unchanged when no reload is asked; a level reload keeps score, clock and powerup samples and loads the level; a restart resets the game |
| Game.World.ApplyReload | project.py:1159-1166 | no reload changes nothing; a level reload keeps level, score, points, clock and powerup samples and loads the level with the player's stats; a restart gives level 1, no score or points, the clock at now, and the first level loaded |
| Game.World.Frame | project.py:1422-1437 | the clock is stamped; outside play nothing else changes (phase, player, enemies, bullets, powerups, systems, repair, score, points and both sample counters all kept); score and points never fall, the level stays, and play never enters the shop |
| Game.World.UpdateActors | project.py:1432-1433 | update_player then update_enemies: the player slides (unless repairing), the repair ticks and may complete the level with its bonus, then the enemy pass runs from the moved player; every field they touch is given, a fatal contact ends the game; the invariant holds, score and points never fall, and the shop never opens |
| Game.World.UpdateShots | project.py:1434-1435 | update_bullets then update_powerups: the player-bullet pass pays its gain into score and points and drops its powerups, the enemy-bullet pass hurts the player, then the powerup pass runs over the old powerups plus the drops from the hurt player; every field they touch is given, a fatal hit ends the game; the invariant holds, score and points never fall, and the shop never opens |
| Findings.TableCooldownShifts | project.py:1022-1069 | as written: after a kill, an enemy that dealt contact damage 0.1 s ago may deal it again, and another enemy inherits its cooldown |
| Findings.KillKeepsContactTimes | project.py:1019-1069 | corrected: a kill leaves every survivor its own contact time, so each keeps its eligibility to touch the player |
| Findings.WoundKeepsContactTimes | project.py:1058-1060 | a strike that does not destroy keeps all contact times in place |
| Findings.FlagsCompleteAndDead | project.py:1130-1164 | as written: a frame that completes the level and kills the player sets both flags, and space then opens the shop for the dead player |
| Findings.DeadPlayerNeverShops | project.py:1145-1171 | corrected: from game over no key opens the shop, changes the level or points, or reloads a level |
| Scenarios.OneShot | project.py:1236-1252 | a fresh player with 20 rounds fires once: 19 rounds, one bullet at muzzle height with the aimed velocity |
| Scenarios.ScoutTwoHits | project.py:1058-1069 | a scout of health 20 goes to 5 on the first hit and is destroyed on the second, for its 10 points once and one powerup where it stood |
| Scenarios.ContactDamage | project.py:1024-1030 | a tank deals 10: from 100 health and no shield to 90; a 15-point hit gives 85 without a shield, and shield 0 and health 95 with a shield of 10 |
| Scenarios.LevelBonusOnce | project.py:1130-1141 | repairing the last system of level 2 pays 100 into score and points, once |
| Scenarios.ShopPrices | project.py:1292-1318 | the shop charges 50, 30, 40 and 80 points for choices 1 to 4, the prices its menu shows; with exactly the price the purchase leaves 0 points, and one point short it does nothing |

## Left out

- Rendering, the camera, the HUD and menus, `print` messages, and
  `keyboard_up`, special keys and mouse motion: they do not change game
  state. The same goes for the muzzle flash, `angle` and `pitch`: the model
  takes the player's movement step and aim direction as inputs.
- Trigonometry and square roots: the player's movement step, each enemy's
  reciprocal distance and a sniper's bullet velocity are frame inputs
  (`FrameInput`, `Steering`). Distance comparisons are exact on squares.
- The clock: `time.time()` becomes the `now` parameter of each operation.
  The source reads the clock separately inside `update_enemies` and
  `mouse_click`; the model gives one frame a single time.
- Randomness: `random.randint` and `random.choice` become the sample
  oracles `cells` and `drops` with counters of the samples used. An
  enemy's random facing angle is not modelled.
- Floating-point rounding: arithmetic is exact on `real`.
- Game.World.LoadLevel and Game.World.ResetLevel: both require a player
  with health left when a level of the catalogue is loaded. The source can
  reload a level for a dead player: this is the second finding below, where
  space leaves the shop with `game_over` set. In the model a dead player is
  at game over, and from there no key reloads a level
  (Findings.DeadPlayerNeverShops), so that path does not exist here.
- Game.World: the layout catalogue is the field `layouts`, fixed to
  `LAYOUTS`. The current layout is `Grid()`, which reads the catalogue by
  the clamped index as `get_level_bounds` does.
- Game.World.Frame: does not state the full new state of a frame in play.
  It states the invariant and the frame-wide facts. UpdateActors and
  UpdateShots each state the full new state of their half of the frame;
  the composition of the two is not restated.

## Findings

| source | as written | input that shows it | evidently intended | confidence | as-written member | corrected member |
|---|---|---|---|---|---|---|
| project.py:1022-1069 | contact cooldowns are keyed by list position; a kill deletes only the dead enemy's key, and the enemies behind it move forward without their entries | enemies A, B; B touches the player at t = 10; a bullet kills A; at t = 10.1 B (now at position 0) deals contact damage again | each enemy keeps its own cooldown whatever happens to the others | medium, not executed | Findings.TableCooldownShifts | Findings.KillKeepsContactTimes |
| project.py:1130-1164 | `level_complete` and `game_over` are separate flags; update_enemies and update_bullets still run after update_player completes the level, so both can be set; space then opens the shop without looking at `game_over` | a frame that repairs the last system and then takes the player's last health; then space, space | a dead player stays at game over, and only R restarts | medium, not executed | Findings.FlagsCompleteAndDead | Findings.DeadPlayerNeverShops |
